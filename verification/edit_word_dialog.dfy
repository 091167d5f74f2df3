/** The dialog that edits or deletes one word of a user-created set. */
module EditWord {
  import opened Model
  import opened Forms
  import opened Store

  /** No stored word is the same entry as `w`. */
  predicate Absent(words: seq<Word>, w: Word)
  {
    forall i :: 0 <= i < |words| ==> !SameEntry(words[i], w)
  }

  /** Replacing the entry of `w` with a word of the same English and
      Vietnamese text keeps every position's entry identity. */
  lemma {:induction false} ReplaceSameEntry(words: seq<Word>, w: Word, x: Word)
    requires SameEntry(x, w)
    ensures var r := ReplaceFirst(words, v => SameEntry(v, w), x);
      forall i :: 0 <= i < |words| ==> SameEntry(r[i], words[i])
  {
    if words != [] && !SameEntry(words[0], w) {
      ReplaceSameEntry(words[1..], w, x);
      var r := ReplaceFirst(words, v => SameEntry(v, w), x);
      assert r == [words[0]] + ReplaceFirst(words[1..], v => SameEntry(v, w), x);
    }
  }

  /** Deleting removes the entry entirely: afterwards no stored word matches. */
  lemma DeleteLeavesNone(words: seq<Word>, w: Word)
    ensures Absent(RemoveAll(words, v => SameEntry(v, w)), w)
  {
  }

  class EditWordDialog {
    const dataManager: Store.VocabularyDataManager
    const jsonFileName: string
    /** The word the dialog was opened on. */
    const word: Word
    var dismissed: bool

    constructor (dataManager: Store.VocabularyDataManager, jsonFileName: string, word: Word)
      ensures this.dataManager == dataManager && this.jsonFileName == jsonFileName && this.word == word
      ensures !dismissed
    {
      this.dataManager := dataManager;
      this.jsonFileName := jsonFileName;
      this.word := word;
      dismissed := false;
    }

    /** The form as the dialog opens it. */
    function Form(): (f: WordForm)
      ensures f == Prefill(word)
    {
      Prefill(word)
    }

    /** The save button. A rejected input changes nothing; an accepted one
        replaces the first stored word with the original's English and
        Vietnamese text by the new word, hands the new word to the listener
        and closes the dialog. A word that is not in the store (an asset word
        of a shipped set) leaves the store as it was. */
    method OnSaveClicked(english: string, vietnamese: string, pronunciation: string)
      returns (outcome: Result<Word, InputError>)
      modifies this, dataManager.prefs
      ensures outcome == ValidateWord(english, vietnamese, pronunciation)
      ensures outcome.Err? ==> unchanged(dataManager.prefs) && dismissed == old(dismissed)
      ensures outcome.Ok? ==>
        && dataManager.WordsForSet(jsonFileName)
             == ReplaceFirst(old(dataManager.WordsForSet(jsonFileName)), w => SameEntry(w, word), outcome.value)
        && dataManager.UserVocabularySets() == old(dataManager.UserVocabularySets())
        && (forall f :: f != jsonFileName ==> dataManager.WordsForSet(f) == old(dataManager.WordsForSet(f)))
        && dismissed
      ensures outcome.Ok? && Absent(old(dataManager.WordsForSet(jsonFileName)), word) ==>
        dataManager.WordsForSet(jsonFileName) == old(dataManager.WordsForSet(jsonFileName))
    {
      outcome := ValidateWord(english, vietnamese, pronunciation);
      if outcome.Ok? {
        dismissed := true;
        ghost var before := dataManager.WordsForSet(jsonFileName);
        dataManager.UpdateWordInSet(jsonFileName, word, outcome.value);
        if Absent(before, word) {
          ReplaceFirstNone(before, w => SameEntry(w, word), outcome.value);
        }
      }
    }

    /** The confirmation of the delete button: every stored word with the
        original's English and Vietnamese text goes; the listener receives
        the original word and the dialog closes. */
    method OnDeleteConfirmed() returns (deleted: Word)
      modifies this, dataManager.prefs
      ensures deleted == word
      ensures dataManager.WordsForSet(jsonFileName)
        == RemoveAll(old(dataManager.WordsForSet(jsonFileName)), w => SameEntry(w, word))
      ensures Absent(dataManager.WordsForSet(jsonFileName), word)
      ensures dataManager.UserVocabularySets() == old(dataManager.UserVocabularySets())
      ensures forall f :: f != jsonFileName ==> dataManager.WordsForSet(f) == old(dataManager.WordsForSet(f))
      ensures dismissed
    {
      dataManager.DeleteWordFromSet(jsonFileName, word);
      DeleteLeavesNone(old(dataManager.WordsForSet(jsonFileName)), word);
      deleted := word;
      dismissed := true;
    }
  }
}
