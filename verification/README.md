# Flashcard vocabulary app, modelled in Dafny

This project models the core of an Android vocabulary-learning app. The model covers:

- **Word store.** Vocabulary sets and their words live in one SharedPreferences file (`VocabularyDataManager`).
- **Study screen.** Shuffled flashcards with wrap-around navigation and a flip (`StudyActivity`).
- **Matching game.** Five words are dealt as ten cards, and taps pair them up (`MatchActivity`, `MatchCard`, `MatchAdapter`).
- **Word list screen.** It reloads after every add, edit and delete (`VocabularyListActivity`).
- **Dialogs.** Adding and editing words and sets, with input checks and clock-stamped file names.
- **AI generation.** A dialog asks a chat-completion service for a set of words (`AIVocabularyDialog`). The client builds the request, strips code fences from the reply, repairs a truncated JSON array and extracts the words (`GPTApiService`).

Each Java class whose fields change in place is a Dafny `class` whose methods state the new state. The matching game, study screen, list screen, dialogs, store, preferences and service follow this form. Pure logic is a set of functions with lemmas about them: trimming, parsing, prompt building, fence stripping, repair, extraction and card appearance. Loops in the source are `while` loops with invariants:

- the store's update-first-match loops;
- the dealing loop;
- `Collections.shuffle`;
- the word-extraction loop.

| file | module | models |
|---|---|---|
| model.dfy | Model | `Word`, `VocabularySet`, `Option`, `Result` |
| text.dfy | Text | `String.trim`, `startsWith`/`endsWith`, `indexOf`/`lastIndexOf`, `Integer.parseInt`, decimal rendering |
| vocabulary_data_manager.dfy | Store | `SharedPreferences` as a map, `VocabularyDataManager` |
| word_sources.dfy | WordSources | the shipped-plus-user word merge, `Collections.shuffle` |
| match_card.dfy | Cards | `MatchCard` |
| match_adapter.dfy | CardAdapter | `MatchAdapter` binding and tap guard |
| match_activity.dfy | Matching | `MatchActivity`: dealing, tap handling, delayed continuations |
| study_activity.dfy | Study | `StudyActivity` |
| forms.dfy | Forms | the checks shared by the word and set dialogs; file names stamped with the clock |
| add_word_dialog.dfy | AddWord | `AddWordDialog` |
| edit_word_dialog.dfy | EditWord | `EditWordDialog` |
| add_vocabulary_set_dialog.dfy | AddSet | `AddVocabularySetDialog` |
| edit_vocabulary_set_dialog.dfy | EditSet | `EditVocabularySetDialog` |
| vocabulary_list_activity.dfy | WordList | `VocabularyListActivity` |
| gpt_api_service.dfy | Gpt | `GPTApiService` |
| ai_vocabulary_dialog.dfy | AiDialog | `AIVocabularyDialog` |

Some behaviours of the code are easy to miss when reading it, and the model keeps them as written:

- **Tapping the same card twice.** Tapping the selected card again is a second pick of that card with itself. It takes the correct-pair path and counts a pair (`Matching.SelfTapScoresPair`). The adapter's tap guard (MatchAdapter.java:68) lets the selected card through because it is neither matched nor marked correct, and MatchActivity.java:197 then compares the card's id with its own.
- **Replay during a pending match.** Replay does not cancel a continuation that is still pending. The continuation then credits a pair in the new round (`Matching.ReplayDuringPendingMatch`). The replay button (MatchActivity.java:113) only calls setupNewGame, which resets the counters and the deck but leaves the queued handler callbacks in place.
- **Card state.** A card keeps four independent flags, as `MatchCard` does, rather than one exclusive state. The adapter decides what they look like, and `matched` takes precedence over `correctPair`, `wrongPair` and `flipped`.
- **Pending cards.** The game itself does not ignore taps on pending or matched cards. The adapter's tap guard and the `isChecking` lock keep them out.

## Model

| member | source | states |
|---|---|---|
| Model.NewWord | app/src/main/java/com/example/flashcard/model/Word.java:12-16 | the three-argument constructor keeps English, Vietnamese and pronunciation and leaves example and memory tip null |
| Text.LeadingBlanks | app/src/main/java/com/example/flashcard/dialog/AddWordDialog.java:49-51 | counts the leading characters `String.trim` drops (code point at most U+0020) and stops at the first visible one |
| Text.TrailingBlanks | app/src/main/java/com/example/flashcard/dialog/AddWordDialog.java:49-51 | counts the trailing characters `String.trim` drops and stops at the last visible one |
| Text.Trim | app/src/main/java/com/example/flashcard/dialog/AddWordDialog.java:49-51 | empty exactly when every character is blank; otherwise the contiguous slice from the first to the last visible character, starting and ending with a visible character |
| Text.TrimIdempotent | app/src/main/java/com/example/flashcard/util/GPTApiService.java:202-212 | trimming twice equals trimming once |
| Text.TrimOfTrimmed | app/src/main/java/com/example/flashcard/util/GPTApiService.java:212 | a string that starts and ends with a visible character is its own trim |
| Text.TrimKeepsVisibleEnd | app/src/main/java/com/example/flashcard/util/GPTApiService.java:223 | when the last character is visible, trimming keeps it as the last character |
| Text.StartsWithPrefix | app/src/main/java/com/example/flashcard/util/GPTApiService.java:203-208 | a string that starts with "```json" also starts with "```" |
| Text.IndexOf | app/src/main/java/com/example/flashcard/util/GPTApiService.java:229 | `indexOf`: -1 exactly when the character is absent, otherwise its first position |
| Text.LastIndexOf | app/src/main/java/com/example/flashcard/util/GPTApiService.java:226 | `lastIndexOf`: -1 exactly when the character is absent, otherwise its last position |
| Text.DecimalString | app/src/main/java/com/example/flashcard/dialog/AddVocabularySetDialog.java:53 | the decimal rendering of a number is non-empty, all digits, and one digit long exactly below ten |
| Text.DigitsOfDecimal | app/src/main/java/com/example/flashcard/dialog/AddVocabularySetDialog.java:53 | reading a decimal rendering back gives the number |
| Text.ParseInt | app/src/main/java/com/example/flashcard/dialog/AIVocabularyDialog.java:105-115 | `Integer.parseInt` yields only 32-bit values |
| Text.ParseDecimal | app/src/main/java/com/example/flashcard/dialog/AIVocabularyDialog.java:107 | parsing the decimal rendering of any value up to 2^31-1 gives it back |
| Text.ParseNegativeDecimal | app/src/main/java/com/example/flashcard/dialog/AIVocabularyDialog.java:107 | a minus sign before the rendering of any number up to 2^31 parses to its negation |
| Text.ParseRejectsNonDigit | app/src/main/java/com/example/flashcard/dialog/AIVocabularyDialog.java:112-114 | a non-digit after the first character makes the parse fail |
| Store.WordsKeysDistinct | app/src/main/java/com/example/flashcard/util/VocabularyDataManager.java:47 | the key "words_" + file never collides with "vocabulary_sets", and different files get different keys |
| Store.RemoveAll | app/src/main/java/com/example/flashcard/util/VocabularyDataManager.java:68 | `removeIf`: the result holds no element matching the predicate and keeps every element that does not match |
| Store.RemoveAllAppend | app/src/main/java/com/example/flashcard/util/VocabularyDataManager.java:93-96 | `removeIf` distributes over concatenation |
| Store.RemoveAllNone | app/src/main/java/com/example/flashcard/util/VocabularyDataManager.java:93-96 | `removeIf` without a match leaves the list unchanged |
| Store.ReplaceFirst | app/src/main/java/com/example/flashcard/util/VocabularyDataManager.java:82-87 | replacing the first match keeps the length |
| Store.ReplaceFirstAt | app/src/main/java/com/example/flashcard/util/VocabularyDataManager.java:102-109 | when position i is the first match, exactly position i is replaced |
| Store.ReplaceFirstNone | app/src/main/java/com/example/flashcard/util/VocabularyDataManager.java:102-109 | without a match the list is unchanged |
| Store.SharedPreferences.constructor | app/src/main/java/com/example/flashcard/util/VocabularyDataManager.java:24 | the preferences file opens with the given entries |
| Store.SharedPreferences.GetString | app/src/main/java/com/example/flashcard/util/VocabularyDataManager.java:29 | a missing key yields the default |
| Store.SharedPreferences.PutString | app/src/main/java/com/example/flashcard/util/VocabularyDataManager.java:43 | the key maps to the new text, no other entry changes, and reading it back gives the value |
| Store.VocabularyDataManager.constructor | app/src/main/java/com/example/flashcard/util/VocabularyDataManager.java:23-26 | the manager works on the given preferences file |
| Store.VocabularyDataManager.UserVocabularySets | app/src/main/java/com/example/flashcard/util/VocabularyDataManager.java:28-33 | no stored registry reads as the empty list |
| Store.VocabularyDataManager.WordsForSet | app/src/main/java/com/example/flashcard/util/VocabularyDataManager.java:46-52 | no stored words for a file read as the empty list |
| Store.VocabularyDataManager.IsUserCreatedSet | app/src/main/java/com/example/flashcard/util/VocabularyDataManager.java:75-78 | true exactly when some registered set has the file name |
| Store.VocabularyDataManager.SaveVocabularySets | app/src/main/java/com/example/flashcard/util/VocabularyDataManager.java:41-44 | only the registry key changes, and the registry reads back as the saved list |
| Store.VocabularyDataManager.SaveWordsForSet | app/src/main/java/com/example/flashcard/util/VocabularyDataManager.java:60-64 | only that file's word key changes; the words read back; the registry and other files are unchanged |
| Store.VocabularyDataManager.AddVocabularySet | app/src/main/java/com/example/flashcard/util/VocabularyDataManager.java:35-39 | the set is appended to the registry and becomes user-created; no word list changes |
| Store.VocabularyDataManager.AddWordToSet | app/src/main/java/com/example/flashcard/util/VocabularyDataManager.java:54-58 | the word is appended to that file's list; the registry and other files are unchanged |
| Store.VocabularyDataManager.DeleteVocabularySet | app/src/main/java/com/example/flashcard/util/VocabularyDataManager.java:66-73 | every registered set with the file name is removed; its word key is deleted; other files are unchanged |
| Store.VocabularyDataManager.UpdateVocabularySet | app/src/main/java/com/example/flashcard/util/VocabularyDataManager.java:80-89 | the first set with the same file name is replaced (nothing when none); no word list changes |
| Store.VocabularyDataManager.DeleteWordFromSet | app/src/main/java/com/example/flashcard/util/VocabularyDataManager.java:91-98 | every word with the same English and Vietnamese text is removed; other files and the registry are unchanged |
| Store.VocabularyDataManager.UpdateWordInSet | app/src/main/java/com/example/flashcard/util/VocabularyDataManager.java:100-111 | the first word with the same English and Vietnamese text is replaced; other files and the registry are unchanged |
| WordSources.MergeUserCreated | app/src/main/java/com/example/flashcard/StudyActivity.java:141-142 | a user-created set shows exactly its stored words |
| WordSources.MergeShipped | app/src/main/java/com/example/flashcard/StudyActivity.java:143-160 | a shipped set shows the asset words in file order, followed by the stored words |
| WordSources.MergeAssetFailed | app/src/main/java/com/example/flashcard/StudyActivity.java:155-160 | an unreadable asset leaves only the stored words |
| WordSources.MergeAfterAppend | app/src/main/java/com/example/flashcard/VocabularyListActivity.java:186-197 | appending a stored word appends it to the merged list |
| WordSources.Shuffle | app/src/main/java/com/example/flashcard/StudyActivity.java:90 | `Collections.shuffle` returns a permutation of its input |
| WordSources.MapSeqAppend | app/src/main/java/com/example/flashcard/MatchActivity.java:164-170 | the image of a concatenation is the concatenation of the images |
| WordSources.MapPreservesPermutation | app/src/main/java/com/example/flashcard/MatchActivity.java:170 | permuting the cards permutes their faces |
| Cards.MatchCard.constructor | app/src/main/java/com/example/flashcard/model/MatchCard.java:7-15 | a new card holds its text and pair id with all four flags false |
| Cards.MatchCard.SetMatched | app/src/main/java/com/example/flashcard/model/MatchCard.java:21 | only the matched flag changes |
| Cards.MatchCard.SetFlipped | app/src/main/java/com/example/flashcard/model/MatchCard.java:24 | only the flipped flag changes |
| Cards.MatchCard.SetWrongPair | app/src/main/java/com/example/flashcard/model/MatchCard.java:27 | only the wrong-pair flag changes |
| Cards.MatchCard.SetCorrectPair | app/src/main/java/com/example/flashcard/model/MatchCard.java:30 | only the correct-pair flag changes |
| CardAdapter.AppearancePrecedence | app/src/main/java/com/example/flashcard/adapter/MatchAdapter.java:45-64 | hidden iff matched; green iff not matched and correct; red, grey and white follow in that order of precedence |
| CardAdapter.ForwardsTapIffActive | app/src/main/java/com/example/flashcard/adapter/MatchAdapter.java:67-71 | a tap is forwarded exactly for red, grey and white cards, and never for hidden or green ones |
| CardAdapter.Bind | app/src/main/java/com/example/flashcard/adapter/MatchAdapter.java:40-72 | a bound cell shows the card's text and appearance and forwards its own position exactly when the guard lets the tap through |
| CardAdapter.ItemCount | app/src/main/java/com/example/flashcard/adapter/MatchAdapter.java:76-78 | one cell per card |
| Matching.Pairs | app/src/main/java/com/example/flashcard/MatchActivity.java:164-168 | two faces per game word |
| Matching.PairsIdCount | app/src/main/java/com/example/flashcard/MatchActivity.java:164-168 | in a deal, each id below the number of words occurs exactly twice and no other id occurs |
| Matching.PairsAt | app/src/main/java/com/example/flashcard/MatchActivity.java:164-168 | face 2i is word i's English text and face 2i+1 its Vietnamese text, both with id i |
| Matching.FaceInPairs | app/src/main/java/com/example/flashcard/MatchActivity.java:164-168 | every dealt face carries the English or the Vietnamese text of the word its id names |
| Matching.DealtFaces | app/src/main/java/com/example/flashcard/MatchActivity.java:164-170 | after the card shuffle, each card still carries one side of the word its id names |
| Matching.DealtIds | app/src/main/java/com/example/flashcard/MatchActivity.java:164-170 | after the card shuffle, each of the five ids is on exactly two cards |
| Matching.DistinctCount | app/src/main/java/com/example/flashcard/MatchActivity.java:166-167 | a list without repeats holds each element at most once |
| Matching.DistinctPermutation | app/src/main/java/com/example/flashcard/MatchActivity.java:170 | a permutation of a list without repeats has no repeats |
| Matching.Marked | app/src/main/java/com/example/flashcard/MatchActivity.java:197-226 | a second pick sets correct-pair on an equal id and wrong-pair otherwise, leaving the other flags alone |
| Matching.NewPair | app/src/main/java/com/example/flashcard/MatchActivity.java:165-167 | two new, different, idle cards: one with the word's English text, one with its Vietnamese text, both carrying the word's index |
| Matching.DealStep | app/src/main/java/com/example/flashcard/MatchActivity.java:164-168 | each pass of the dealing loop appends the faces of exactly the next word |
| Matching.DistinctStep | app/src/main/java/com/example/flashcard/MatchActivity.java:166-167 | two newly created cards keep the deal free of repeated card objects |
| Matching.DealCards | app/src/main/java/com/example/flashcard/MatchActivity.java:164-168 | new idle, pairwise distinct card objects whose faces are exactly the word pairs |
| Matching.ShuffleDeal | app/src/main/java/com/example/flashcard/MatchActivity.java:170 | the shuffled deck is a permutation of the dealt cards, with the same faces |
| Matching.NewDeck | app/src/main/java/com/example/flashcard/MatchActivity.java:159-170 | ten new idle cards, each id on exactly two of them, faces a permutation of the pairs |
| Matching.MarkPair | app/src/main/java/com/example/flashcard/MatchActivity.java:194-226 | the tapped card is flipped and marked; the first card is marked too when it is a different card |
| Matching.SetBothMatched | app/src/main/java/com/example/flashcard/MatchActivity.java:207-208 | both cards become matched |
| Matching.TurnBothBack | app/src/main/java/com/example/flashcard/MatchActivity.java:232-235 | both cards are turned face down and lose the wrong-pair mark |
| Matching.MatchActivity.constructor | app/src/main/java/com/example/flashcard/MatchActivity.java:53-114 | with fewer than five merged words the screen finishes with no cards; otherwise a shuffled game is dealt from the first five words |
| Matching.MatchActivity.LoadWords | app/src/main/java/com/example/flashcard/MatchActivity.java:119-153 | the full word list is the merge of asset and stored words; nothing else changes |
| Matching.MatchActivity.SetupNewGame | app/src/main/java/com/example/flashcard/MatchActivity.java:155-175 | resets counter, pick and lock; shuffles the word list in place (a permutation); deals new cards from its first five words |
| Matching.MatchActivity.HandleCardClick | app/src/main/java/com/example/flashcard/MatchActivity.java:178-245 | a locked board ignores the tap; otherwise it is a first pick (card flipped, position remembered) or a second pick (lock, mark green/red, post the continuation) |
| Matching.MatchActivity.PickFirst | app/src/main/java/com/example/flashcard/MatchActivity.java:185-189 | the tapped card flips and becomes the first pick; nothing else changes |
| Matching.MatchActivity.PickSecond | app/src/main/java/com/example/flashcard/MatchActivity.java:190-243 | locks the board, marks both cards by id equality and queues the matching continuation |
| Matching.MatchActivity.OnCardTap | app/src/main/java/com/example/flashcard/adapter/MatchAdapter.java:67-71 | a tap on a hidden or green card changes nothing; any other tap is handled by handleCardClick |
| Matching.MatchActivity.ResolveMatch | app/src/main/java/com/example/flashcard/MatchActivity.java:206-219 | the 500 ms continuation: both cards matched, one more pair, pick and lock cleared, completion dialog exactly when the count reaches five |
| Matching.MatchActivity.ResolveMismatch | app/src/main/java/com/example/flashcard/MatchActivity.java:231-242 | the 1000 ms continuation: both cards face down and unmarked, pick and lock cleared, count unchanged |
| Matching.SelfTapScoresPair | app/src/main/java/com/example/flashcard/MatchActivity.java:185-219 | tapping one idle card twice scores a pair and hides that card alone |
| Matching.ReplayDuringPendingMatch | app/src/main/java/com/example/flashcard/MatchActivity.java:113 | replay while a match is pending leaves a new idle deck with the pair count already at one |
| Study.ViewOf | app/src/main/java/com/example/flashcard/StudyActivity.java:168-198 | pronunciation shown iff present and non-empty; example and tip shown iff present and not blank, behind their markers |
| Study.DialogWordView | app/src/main/java/com/example/flashcard/StudyActivity.java:181-194 | a word saved by a dialog never shows an example or a memory tip |
| Study.BlankExampleHidden | app/src/main/java/com/example/flashcard/StudyActivity.java:181-186 | an example of spaces only stays hidden |
| Study.NextIndex | app/src/main/java/com/example/flashcard/StudyActivity.java:257-260 | one forward, wrapping from the last card to the first |
| Study.PreviousIndex | app/src/main/java/com/example/flashcard/StudyActivity.java:264-271 | one back from any card but the first, and from the first to the last; stays in range; `NextIndex` undoes it |
| Study.PreviousUndoesNext | app/src/main/java/com/example/flashcard/StudyActivity.java:257-271 | previous after next returns to the same card |
| Study.NextUndoesPrevious | app/src/main/java/com/example/flashcard/StudyActivity.java:257-271 | next after previous returns to the same card |
| Study.Forward | app/src/main/java/com/example/flashcard/StudyActivity.java:257-260 | repeated presses of next stay in range |
| Study.ForwardNoWrap | app/src/main/java/com/example/flashcard/StudyActivity.java:257-260 | before the end, k presses move k cards on |
| Study.ForwardWrap | app/src/main/java/com/example/flashcard/StudyActivity.java:257-260 | past the end, the count continues from the first card |
| Study.Distance | app/src/main/java/com/example/flashcard/StudyActivity.java:257-260 | fewer than n presses lead from any card to any other |
| Study.ForwardFullCycle | app/src/main/java/com/example/flashcard/StudyActivity.java:257-260 | n presses come back to the start, and every card is reached on the way |
| Study.StudyActivity.constructor | app/src/main/java/com/example/flashcard/StudyActivity.java:82-95 | an empty set closes the screen; otherwise a permutation of the merged words with card 0 shown front up |
| Study.StudyActivity.LoadWords | app/src/main/java/com/example/flashcard/StudyActivity.java:136-166 | the word list is the merge of asset and stored words |
| Study.StudyActivity.DisplayCurrentWord | app/src/main/java/com/example/flashcard/StudyActivity.java:168-208 | an index in range shows that word front up; otherwise nothing changes |
| Study.StudyActivity.ShowNextWord | app/src/main/java/com/example/flashcard/StudyActivity.java:257-260 | moves to the next index and shows that card front up |
| Study.StudyActivity.ShowPreviousWord | app/src/main/java/com/example/flashcard/StudyActivity.java:264-271 | moves to the previous index and shows that card front up |
| Study.StudyActivity.FlipCard | app/src/main/java/com/example/flashcard/StudyActivity.java:210-217 | the card side toggles; the word shown does not change |
| Study.StudyActivity.Utterance | app/src/main/java/com/example/flashcard/StudyActivity.java:126-129 | the speak button says the shown English text exactly when the engine exists and the text is non-empty |
| Forms.ValidateWord | app/src/main/java/com/example/flashcard/dialog/AddWordDialog.java:48-63 | blank English is rejected first, then blank Vietnamese; otherwise the trimmed three-field word |
| Forms.ValidateWordIdempotent | app/src/main/java/com/example/flashcard/dialog/EditWordDialog.java:65-80 | an accepted word typed back into the form is accepted unchanged |
| Forms.Prefill | app/src/main/java/com/example/flashcard/dialog/EditWordDialog.java:57-61 | the edit form shows the word's fields, with an empty pronunciation field when it has none |
| Forms.UneditedSave | app/src/main/java/com/example/flashcard/dialog/EditWordDialog.java:57-81 | saving an untouched form keeps the word's identity but drops its example and memory tip |
| Forms.ValidateTitle | app/src/main/java/com/example/flashcard/dialog/AddVocabularySetDialog.java:45-50 | a blank title is rejected; otherwise the trimmed, non-empty title |
| Forms.StampedFileName | app/src/main/java/com/example/flashcard/dialog/AddVocabularySetDialog.java:53 | the name starts with the prefix and ends with ".json" |
| Forms.StampedMillis | app/src/main/java/com/example/flashcard/dialog/AddVocabularySetDialog.java:53 | the clock reading can be read back from the file name |
| Forms.StampedFileNamesDistinct | app/src/main/java/com/example/flashcard/dialog/AddVocabularySetDialog.java:53 | different milliseconds give different file names |
| Forms.UserAndAiNamesDistinct | app/src/main/java/com/example/flashcard/dialog/AIVocabularyDialog.java:158 | a hand-made set never gets the file name of a generated one |
| AddWord.AddWordDialog.constructor | app/src/main/java/com/example/flashcard/dialog/AddWordDialog.java:28-33 | the dialog is bound to a set file and not dismissed |
| AddWord.AddWordDialog.OnAddClicked | app/src/main/java/com/example/flashcard/dialog/AddWordDialog.java:48-71 | a rejected input changes nothing; an accepted word is appended to the set's stored words and the dialog closes |
| EditWord.ReplaceSameEntry | app/src/main/java/com/example/flashcard/util/VocabularyDataManager.java:100-111 | an edit that keeps English and Vietnamese keeps every entry's identity |
| EditWord.DeleteLeavesNone | app/src/main/java/com/example/flashcard/util/VocabularyDataManager.java:91-98 | after a delete no entry with the deleted word's identity remains |
| EditWord.EditWordDialog.constructor | app/src/main/java/com/example/flashcard/dialog/EditWordDialog.java:34-43 | the dialog is bound to a set file and a word |
| EditWord.EditWordDialog.Form | app/src/main/java/com/example/flashcard/dialog/EditWordDialog.java:57-61 | the form is prefilled from the word |
| EditWord.EditWordDialog.OnSaveClicked | app/src/main/java/com/example/flashcard/dialog/EditWordDialog.java:65-89 | a rejected input changes nothing; otherwise the first entry with the old identity is replaced (no change when absent) and the dialog closes |
| EditWord.EditWordDialog.OnDeleteConfirmed | app/src/main/java/com/example/flashcard/dialog/EditWordDialog.java:91-107 | every entry with the word's identity is removed from the set; other sets are unchanged |
| AddSet.AddVocabularySetDialog.constructor | app/src/main/java/com/example/flashcard/dialog/AddVocabularySetDialog.java:27-31 | a fresh, undismissed dialog |
| AddSet.AddVocabularySetDialog.OnAddClicked | app/src/main/java/com/example/flashcard/dialog/AddVocabularySetDialog.java:44-64 | a blank title changes nothing; otherwise an empty set "user_<millis>.json" with the trimmed title is registered and the dialog closes |
| EditSet.ReplaceKeepsFileNames | app/src/main/java/com/example/flashcard/util/VocabularyDataManager.java:80-89 | updating a set never changes any file name in the registry |
| EditSet.EditVocabularySetDialog.constructor | app/src/main/java/com/example/flashcard/dialog/EditVocabularySetDialog.java:33-41 | the dialog is bound to a set |
| EditSet.EditVocabularySetDialog.Form | app/src/main/java/com/example/flashcard/dialog/EditVocabularySetDialog.java:53 | the form shows the set's title |
| EditSet.EditVocabularySetDialog.OnSaveClicked | app/src/main/java/com/example/flashcard/dialog/EditVocabularySetDialog.java:57-74 | a blank title changes nothing; otherwise the set is renamed in place, with the same file and word count, and which files are user-created stays the same |
| EditSet.EditVocabularySetDialog.OnDeleteConfirmed | app/src/main/java/com/example/flashcard/dialog/EditVocabularySetDialog.java:76-92 | the set leaves the registry, its words are gone, other sets' words are unchanged |
| WordList.ToolbarTitle | app/src/main/java/com/example/flashcard/VocabularyListActivity.java:67 | the category title, or "Từ vựng" without one |
| WordList.AssetWordSurvivesDelete | app/src/main/java/com/example/flashcard/VocabularyListActivity.java:244-251 | deleting a shipped word from a shipped set leaves it on the list |
| WordList.VocabularyListActivity.constructor | app/src/main/java/com/example/flashcard/VocabularyListActivity.java:43-81 | the screen opens showing the current merged list |
| WordList.VocabularyListActivity.Title | app/src/main/java/com/example/flashcard/VocabularyListActivity.java:67 | the toolbar title |
| WordList.VocabularyListActivity.LoadWords | app/src/main/java/com/example/flashcard/VocabularyListActivity.java:144-181 | the list is rebuilt from scratch as the current merge of asset and stored words |
| WordList.VocabularyListActivity.OnResume | app/src/main/java/com/example/flashcard/VocabularyListActivity.java:202-213 | reloading an up-to-date list leaves it unchanged |
| WordList.VocabularyListActivity.AddWordFlow | app/src/main/java/com/example/flashcard/VocabularyListActivity.java:186-200 | an accepted word appears once, at the end of the list; a rejected one changes nothing |
| WordList.VocabularyListActivity.EditWordFlow | app/src/main/java/com/example/flashcard/VocabularyListActivity.java:231-243 | after a save the list is the merge with the stored entry replaced |
| WordList.VocabularyListActivity.DeleteWordFlow | app/src/main/java/com/example/flashcard/VocabularyListActivity.java:244-251 | after a delete the list is the merge with the stored entries removed |
| WordList.VocabularyListActivity.Speak | app/src/main/java/com/example/flashcard/VocabularyListActivity.java:225-229 | text is spoken exactly when the engine exists and the text is non-empty |
| Gpt.Int32 | app/src/main/java/com/example/flashcard/util/GPTApiService.java:80 | Java int arithmetic wraps into the 32-bit range and leaves values in range alone |
| Gpt.MaxTokens | app/src/main/java/com/example/flashcard/util/GPTApiService.java:80 | at least 4000, and max(4000, count·250) when the product does not overflow |
| Gpt.MaxTokensForDialogCounts | app/src/main/java/com/example/flashcard/util/GPTApiService.java:80 | for counts 1..50: 4000 up to 16 words, count·250 above, never over 12500 |
| Gpt.MaxTokensWraps | app/src/main/java/com/example/flashcard/util/GPTApiService.java:80 | an overflowing product falls back to 4000 |
| Gpt.BuildPrompt | app/src/main/java/com/example/flashcard/util/GPTApiService.java:122-187 | interests section iff interests are non-blank; style section and tip style iff the style is not the default; a guide exactly for the four known styles |
| Gpt.PlainPrompt | app/src/main/java/com/example/flashcard/util/GPTApiService.java:118-120 | no interests and the default style give the bare prompt |
| Gpt.UnknownStyleHeadingOnly | app/src/main/java/com/example/flashcard/util/GPTApiService.java:137-157 | an unknown style gets the heading without a guide, but is still named in the tip requirement |
| Gpt.BlankInterestsIgnored | app/src/main/java/com/example/flashcard/util/GPTApiService.java:128 | interests of spaces only add nothing |
| Gpt.DropLeading | app/src/main/java/com/example/flashcard/util/GPTApiService.java:203-208 | drops the fence exactly when the text starts with it |
| Gpt.DropTrailing | app/src/main/java/com/example/flashcard/util/GPTApiService.java:209-211 | drops the fence exactly when the text ends with it |
| Gpt.StripFences | app/src/main/java/com/example/flashcard/util/GPTApiService.java:201-212 | the result is trimmed and no longer than the content |
| Gpt.StripWithoutFences | app/src/main/java/com/example/flashcard/util/GPTApiService.java:201-212 | without fences stripping is trimming |
| Gpt.StripJsonFence | app/src/main/java/com/example/flashcard/util/GPTApiService.java:203-212 | a "```json" fenced body comes out as the trimmed body |
| Gpt.StripPlainFence | app/src/main/java/com/example/flashcard/util/GPTApiService.java:206-212 | a plain fenced body comes out as the trimmed body |
| Gpt.Repair | app/src/main/java/com/example/flashcard/util/GPTApiService.java:222-235 | an unrepairable text is kept; a repaired one is the content up to its last '}' closed by ']', with a '[' before it |
| Gpt.CutAfterLastBrace | app/src/main/java/com/example/flashcard/util/GPTApiService.java:226-231 | cutting after the last '}' and closing with ']' yields that shape |
| Gpt.RepairIdempotent | app/src/main/java/com/example/flashcard/util/GPTApiService.java:222-235 | repairing twice equals repairing once |
| Gpt.ClosedNotRepairable | app/src/main/java/com/example/flashcard/util/GPTApiService.java:223 | text ending in ']' is left alone |
| Gpt.RepairDropsTruncatedObject | app/src/main/java/com/example/flashcard/util/GPTApiService.java:222-235 | a truncated last object is dropped: "[{},{\"e" becomes "[{}]" |
| Gpt.ExtractWord | app/src/main/java/com/example/flashcard/util/GPTApiService.java:249-271 | an element gives a word iff it is an object with english and vietnamese and every present field is a readable primitive; missing optional fields become "" |
| Gpt.ExtractedWords | app/src/main/java/com/example/flashcard/util/GPTApiService.java:246-272 | never more words than elements |
| Gpt.ExtractedWordsAppend | app/src/main/java/com/example/flashcard/util/GPTApiService.java:248-272 | extraction distributes over concatenation |
| Gpt.SkippedElement | app/src/main/java/com/example/flashcard/util/GPTApiService.java:253-256 | an unusable element is skipped without disturbing the others |
| Gpt.AllComplete | app/src/main/java/com/example/flashcard/util/GPTApiService.java:248-272 | when every element is usable, word i comes from element i |
| Gpt.CollectWords | app/src/main/java/com/example/flashcard/util/GPTApiService.java:246-272 | the extraction loop produces exactly the extracted words |
| Gpt.FirstContent | app/src/main/java/com/example/flashcard/util/GPTApiService.java:191-199 | missing or empty choices give the no-data error; an unreadable first choice is malformed; otherwise its content |
| Gpt.ParseResponse | app/src/main/java/com/example/flashcard/util/GPTApiService.java:189-280 | each failure stage maps to its error; success is the non-empty list of words extracted from the cleaned content |
| Gpt.ParseChatResponse | app/src/main/java/com/example/flashcard/util/GPTApiService.java:349-362 | the trimmed first content, or the envelope's error |
| Gpt.VocabularyReply | app/src/main/java/com/example/flashcard/util/GPTApiService.java:90-115 | connection failures and non-2xx codes are reported as such; a 2xx body's parse failure is reported with its cause at each stage (envelope, first choice, JSON array, no words); otherwise exactly the extracted words are delivered, and a result is delivered iff a 2xx body yields at least one word |
| Gpt.ChatReply | app/src/main/java/com/example/flashcard/util/GPTApiService.java:321-346 | the same error mapping for chat; success is the parsed text |
| Gpt.GPTApiService.constructor | app/src/main/java/com/example/flashcard/util/GPTApiService.java:44-51 | a new service has no key |
| Gpt.GPTApiService.SetApiKey | app/src/main/java/com/example/flashcard/util/GPTApiService.java:53-55 | the key is stored |
| Gpt.GPTApiService.GenerateVocabulary | app/src/main/java/com/example/flashcard/util/GPTApiService.java:61-88 | fails exactly without a non-empty key; otherwise a bearer-authorised request with one user prompt, model gpt-3.5-turbo, temperature 0.7 and the token budget |
| Gpt.GPTApiService.GenerateVocabularyPlain | app/src/main/java/com/example/flashcard/util/GPTApiService.java:57-59 | the three-argument overload sends the bare prompt |
| Gpt.GPTApiService.SendChatMessage | app/src/main/java/com/example/flashcard/util/GPTApiService.java:282-319 | same key guard; the system message then the user's message, 2000 tokens |
| AiDialog.StylesAreDefaultThenNamed | app/src/main/java/com/example/flashcard/dialog/AIVocabularyDialog.java:80 | the spinner lists the default style, then the four styles the prompt knows |
| AiDialog.PreferenceKeysApart | app/src/main/java/com/example/flashcard/dialog/AIVocabularyDialog.java:191-197 | the dialog's two keys never clash with the store's keys in the shared file |
| AiDialog.ValidateGeneration | app/src/main/java/com/example/flashcard/dialog/AIVocabularyDialog.java:91-119 | the first failing check wins (key, topic, number, range 1..50); success carries the trimmed topic, parsed count, trimmed interests and style |
| AiDialog.AcceptsEveryCountInRange | app/src/main/java/com/example/flashcard/dialog/AIVocabularyDialog.java:105-115 | every count from 1 to 50 is accepted |
| AiDialog.RejectsCountsOutsideRange | app/src/main/java/com/example/flashcard/dialog/AIVocabularyDialog.java:108-111 | every count that parses but lies outside 1..50 is rejected as out of range: zero, each 32-bit count above 50, and each negative count down to -2^31 |
| AiDialog.StylePosition | app/src/main/java/com/example/flashcard/dialog/AIVocabularyDialog.java:211 | `getPosition`: -1 iff the style is not listed, otherwise its position |
| AiDialog.StylePositionRoundTrip | app/src/main/java/com/example/flashcard/dialog/AIVocabularyDialog.java:209-214 | every listed style is found at its own position |
| AiDialog.AIVocabularyDialog.constructor | app/src/main/java/com/example/flashcard/dialog/AIVocabularyDialog.java:199-216 | shows the saved interests; selects the saved style when listed and the default otherwise |
| AiDialog.AIVocabularyDialog.SelectStyle | app/src/main/java/com/example/flashcard/dialog/AIVocabularyDialog.java:119 | the spinner moves to a listed position |
| AiDialog.AIVocabularyDialog.OnGenerateClicked | app/src/main/java/com/example/flashcard/dialog/AIVocabularyDialog.java:91-143 | a rejected click changes nothing; an accepted one saves the preferences, closes, sets the key and sends the request for the checked input |
| AiDialog.AIVocabularyDialog.SavePreferences | app/src/main/java/com/example/flashcard/dialog/AIVocabularyDialog.java:191-197 | both keys are written and read back; the store's sets and words are unchanged |
| AiDialog.AIVocabularyDialog.OnWordsGenerated | app/src/main/java/com/example/flashcard/dialog/AIVocabularyDialog.java:145-170 | null or empty words create nothing; otherwise "ai_<millis>.json" is registered with the word count and its words are stored |
| AiDialog.AIVocabularyDialog.OnReply | app/src/main/java/com/example/flashcard/dialog/AIVocabularyDialog.java:143-188 | a set is created iff the reply is 2xx and its body yields at least one word; the set is titled with the given title, named "ai_<millis>.json" and counts those words, which are stored under it; the set is appended to the registry and every other file's words are unchanged; any other reply leaves the store untouched |

## Left out

- Layout, window insets, animations, haptics, toasts and dialog texts are not modelled. The card flip is a boolean, not the two-stage rotation.
- The network is left out: OkHttp, timeouts and the asynchronous callbacks. A reply is a parameter (`Reply`): a connection failure or a status code with a body.
- The response body is assumed present. The "Unknown error" text used when `body()` is null is not modelled.
- JSON decoding and encoding by Gson is abstracted:
  - `readEnvelope` and `readArray` are function parameters.
  - An element is an object of primitive or unreadable fields, or a non-object. This follows what `getAsString` accepts; a one-element array, which `getAsString` also accepts, is not distinguished.
  - Stored lists are kept as values in the preferences map rather than as JSON text.
- A stored preference holding a non-string value (which makes `getString` throw) is not modelled.
- The prompt text is not reproduced. `Gpt.BuildPrompt` records which sections the prompt holds and what they mention, not their wording.
- A null style, which throws at GPTApiService.java:170, cannot occur. The style is always a string, as the spinner supplies one.
- Several environment inputs are parameters:
  - the asset file's contents, as an `Option`, where `None` means an I/O failure;
  - the clock, as a `millis: nat`;
  - `Collections.shuffle`'s random draws, as functions;
  - the configured API key;
  - the formatted "ai_prefix" title resource.
- `Integer.parseInt` is modelled for ASCII digits only. Other Unicode decimal digits are left out.
- Handler delays are not timed. Each posted continuation is a pending step that the environment runs later, in any order.
- The completion dialog's buttons are left out. Its appearance is counted (`completions`).
- The shake animation is left out, including its null view-holder lookup.
- Study.StudyActivity.ShowNextWord: requires a non-empty list. The screen closes when the list is empty, so the source's division by zero at StudyActivity.java:258 cannot be reached from the screen.
- Study.StudyActivity.ShowPreviousWord: requires a non-empty list for the same reason. On an empty list the source would set the index to -1 (StudyActivity.java:267-269), and displayCurrentWord would then do nothing; the model does not cover that unreachable case.
- Word.java and VocabularySet.java as shipped have only the three-field and two-field constructors. Their callers use five-field words (GPTApiService.java:267) and three-field sets (AddVocabularySetDialog.java:55). The model follows the callers: `Word` has five fields and `VocabularySet` has three.
- `WordAdapter`, `VocabularySetAdapter`, `MainActivity`, `AIChatActivity`, `WordDetailDialog` and the chat-message classes are not part of this model.
- Logging is left out.
