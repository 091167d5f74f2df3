/** The dialog that creates an empty user-made vocabulary set. */
module AddSet {
  import opened Model
  import opened Forms
  import opened Text
  import Store

  class AddVocabularySetDialog {
    const dataManager: Store.VocabularyDataManager
    var dismissed: bool

    constructor (dataManager: Store.VocabularyDataManager)
      ensures this.dataManager == dataManager && !dismissed
    {
      this.dataManager := dataManager;
      dismissed := false;
    }

    /** The add button at clock reading `millis`. A blank title leaves the
        registry alone; otherwise a set with the trimmed title, the file name
        "user_<millis>.json" and no words is appended to the registry, handed
        to the listener and the dialog closes. */
    method OnAddClicked(title: string, millis: nat) returns (outcome: Result<VocabularySet, InputError>)
      modifies this, dataManager.prefs
      ensures ValidateTitle(title).Err? ==> outcome == Err(EmptyTitle)
      ensures outcome.Err? ==> unchanged(dataManager.prefs) && dismissed == old(dismissed)
      ensures ValidateTitle(title).Ok? ==>
        outcome == Ok(VocabularySet(Trim(title), StampedFileName(USER_PREFIX, millis), 0))
      ensures outcome.Ok? ==>
        && dataManager.UserVocabularySets() == old(dataManager.UserVocabularySets()) + [outcome.value]
        && dataManager.IsUserCreatedSet(outcome.value.jsonFileName)
        && (forall f :: dataManager.WordsForSet(f) == old(dataManager.WordsForSet(f)))
        && dismissed
    {
      var checked := ValidateTitle(title);
      if checked.Err? {
        return Err(checked.error);
      }
      var fileName := StampedFileName(USER_PREFIX, millis);
      var newSet := VocabularySet(checked.value, fileName, 0);
      dataManager.AddVocabularySet(newSet);
      dismissed := true;
      outcome := Ok(newSet);
    }
  }
}
