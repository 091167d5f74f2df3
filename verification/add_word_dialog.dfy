/** The "add word" dialog of a user-created set. */
module AddWord {
  import opened Model
  import opened Forms
  import Store

  class AddWordDialog {
    const dataManager: Store.VocabularyDataManager
    const jsonFileName: string
    var dismissed: bool

    constructor (dataManager: Store.VocabularyDataManager, jsonFileName: string)
      ensures this.dataManager == dataManager && this.jsonFileName == jsonFileName
      ensures !dismissed
    {
      this.dataManager := dataManager;
      this.jsonFileName := jsonFileName;
      dismissed := false;
    }

    /** The add button. A rejected input leaves the store alone and keeps the
        dialog open; an accepted one appends exactly that word to the set's
        stored list, then hands it to the listener (the Ok value) and closes
        the dialog. */
    method OnAddClicked(english: string, vietnamese: string, pronunciation: string)
      returns (outcome: Result<Word, InputError>)
      modifies this, dataManager.prefs
      ensures outcome == ValidateWord(english, vietnamese, pronunciation)
      ensures outcome.Err? ==> unchanged(dataManager.prefs) && dismissed == old(dismissed)
      ensures outcome.Ok? ==>
        && dataManager.WordsForSet(jsonFileName) == old(dataManager.WordsForSet(jsonFileName)) + [outcome.value]
        && dataManager.UserVocabularySets() == old(dataManager.UserVocabularySets())
        && (forall f :: f != jsonFileName ==> dataManager.WordsForSet(f) == old(dataManager.WordsForSet(f)))
        && dismissed
    {
      outcome := ValidateWord(english, vietnamese, pronunciation);
      if outcome.Ok? {
        dataManager.AddWordToSet(jsonFileName, outcome.value);
        dismissed := true;
      }
    }
  }
}
