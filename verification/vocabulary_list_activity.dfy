/** The word-list screen of one set: the merged list, reloaded from the store
    after every add, edit and delete and whenever the screen resumes. */
module WordList {
  import opened Model
  import opened Text
  import opened Store
  import opened WordSources
  import opened Forms
  import AddWord
  import EditWord

  const DEFAULT_TITLE: string := "Từ vựng"

  /** The toolbar shows the category title passed in, or "Từ vựng" without one. */
  function ToolbarTitle(categoryTitle: Option<string>): (t: string)
    ensures categoryTitle.Some? ==> t == categoryTitle.value
    ensures categoryTitle.None? ==> t == DEFAULT_TITLE
  {
    if categoryTitle.Some? then categoryTitle.value else DEFAULT_TITLE
  }

  /** A word of a shipped set's asset file cannot be removed from the screen:
      deleting it only filters the stored words, and the reloaded list still
      shows it. */
  lemma AssetWordSurvivesDelete(asset: seq<Word>, stored: seq<Word>, w: Word)
    requires w in asset
    ensures w in MergedWords(false, Some(asset), RemoveAll(stored, v => SameEntry(v, w)))
  {
    var merged := MergedWords(false, Some(asset), RemoveAll(stored, v => SameEntry(v, w)));
    var i :| 0 <= i < |asset| && asset[i] == w;
    assert merged[i] == w;
  }

  class VocabularyListActivity {
    const dataManager: VocabularyDataManager
    const jsonFileName: string
    const categoryTitle: Option<string>
    /** The set's asset file as decoded; None when it cannot be read. */
    const asset: Option<seq<Word>>
    var wordList: seq<Word>

    /** The list on screen is what the store and the asset hold right now. */
    ghost predicate Current()
      reads this, dataManager.prefs
    {
      wordList == MergedWords(dataManager.IsUserCreatedSet(jsonFileName), asset, dataManager.WordsForSet(jsonFileName))
    }

    /** onCreate: load the list once. */
    constructor (dataManager: VocabularyDataManager, jsonFileName: string, categoryTitle: Option<string>, asset: Option<seq<Word>>)
      ensures this.dataManager == dataManager && this.jsonFileName == jsonFileName
      ensures this.categoryTitle == categoryTitle && this.asset == asset
      ensures Current()
    {
      this.dataManager := dataManager;
      this.jsonFileName := jsonFileName;
      this.categoryTitle := categoryTitle;
      this.asset := asset;
      wordList := [];
      new;
      LoadWords();
    }

    function Title(): (t: string)
      ensures t == ToolbarTitle(categoryTitle)
    {
      ToolbarTitle(categoryTitle)
    }

    /** loadWords: starts from an empty list every time, so a reload never
        accumulates entries from the previous one. */
    method LoadWords()
      modifies this
      ensures Current()
    {
      var words: seq<Word> := [];
      var isUserCreated := dataManager.IsUserCreatedSet(jsonFileName);
      if isUserCreated {
        words := dataManager.WordsForSet(jsonFileName);
      } else {
        if asset.Some? {
          words := words + asset.value;
        }
        words := words + dataManager.WordsForSet(jsonFileName);
      }
      wordList := words;
    }

    /** onResume. */
    method OnResume()
      modifies this
      ensures Current()
      ensures old(Current()) ==> wordList == old(wordList)
    {
      LoadWords();
    }

    /** The add dialog, opened on this set, followed by the listener's reload:
        an accepted word appears once, at the end of the list. */
    method AddWordFlow(dialog: AddWord.AddWordDialog, english: string, vietnamese: string, pronunciation: string)
      returns (outcome: Result<Word, InputError>)
      requires dialog.dataManager == dataManager && dialog.jsonFileName == jsonFileName
      requires Current()
      modifies this, dialog, dataManager.prefs
      ensures Current()
      ensures outcome == ValidateWord(english, vietnamese, pronunciation)
      ensures outcome.Err? ==> wordList == old(wordList)
      ensures outcome.Ok? ==> wordList == old(wordList) + [outcome.value]
    {
      ghost var stored := dataManager.WordsForSet(jsonFileName);
      outcome := dialog.OnAddClicked(english, vietnamese, pronunciation);
      if outcome.Ok? {
        MergeAfterAppend(dataManager.IsUserCreatedSet(jsonFileName), asset, stored, outcome.value);
        LoadWords();
      }
    }

    /** The edit dialog's save followed by the reload. */
    method EditWordFlow(dialog: EditWord.EditWordDialog, english: string, vietnamese: string, pronunciation: string)
      returns (outcome: Result<Word, InputError>)
      requires dialog.dataManager == dataManager && dialog.jsonFileName == jsonFileName
      requires Current()
      modifies this, dialog, dataManager.prefs
      ensures Current()
      ensures outcome == ValidateWord(english, vietnamese, pronunciation)
      ensures outcome.Err? ==> wordList == old(wordList)
      ensures outcome.Ok? ==>
        wordList == MergedWords(dataManager.IsUserCreatedSet(jsonFileName), asset,
                                ReplaceFirst(old(dataManager.WordsForSet(jsonFileName)), w => SameEntry(w, dialog.word), outcome.value))
    {
      outcome := dialog.OnSaveClicked(english, vietnamese, pronunciation);
      if outcome.Ok? {
        LoadWords();
      }
    }

    /** The edit dialog's confirmed delete followed by the reload. */
    method DeleteWordFlow(dialog: EditWord.EditWordDialog)
      requires dialog.dataManager == dataManager && dialog.jsonFileName == jsonFileName
      modifies this, dialog, dataManager.prefs
      ensures Current()
      ensures wordList == MergedWords(dataManager.IsUserCreatedSet(jsonFileName), asset,
                                      RemoveAll(old(dataManager.WordsForSet(jsonFileName)), w => SameEntry(w, dialog.word)))
    {
      var deleted := dialog.OnDeleteConfirmed();
      LoadWords();
    }

    /** speakWord: the text goes to the speech engine when the engine exists
        and the text is non-empty. */
    function Speak(ttsReady: bool, text: string): (r: Option<string>)
      ensures r.Some? <==> ttsReady && text != []
      ensures r.Some? ==> r.value == text
    {
      if ttsReady && text != [] then Some(text) else None
    }
  }
}
