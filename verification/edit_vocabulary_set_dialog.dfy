/** The dialog that renames or deletes a user-made vocabulary set. */
module EditSet {
  import opened Model
  import opened Forms
  import opened Text
  import opened Store

  /** Replacing a registry entry by one with the same file name keeps every
      position's file name, so the set of user-created names is unchanged. */
  lemma {:induction false} ReplaceKeepsFileNames(sets: seq<VocabularySet>, updated: VocabularySet)
    ensures var r := ReplaceFirst(sets, s => HasFileName(s, updated.jsonFileName), updated);
      forall i :: 0 <= i < |sets| ==> r[i].jsonFileName == sets[i].jsonFileName
  {
    if sets != [] && !HasFileName(sets[0], updated.jsonFileName) {
      ReplaceKeepsFileNames(sets[1..], updated);
      var r := ReplaceFirst(sets, s => HasFileName(s, updated.jsonFileName), updated);
      assert r == [sets[0]] + ReplaceFirst(sets[1..], s => HasFileName(s, updated.jsonFileName), updated);
    }
  }

  class EditVocabularySetDialog {
    const dataManager: Store.VocabularyDataManager
    /** The set the dialog was opened on. */
    const vocabularySet: VocabularySet
    var dismissed: bool

    constructor (dataManager: Store.VocabularyDataManager, vocabularySet: VocabularySet)
      ensures this.dataManager == dataManager && this.vocabularySet == vocabularySet && !dismissed
    {
      this.dataManager := dataManager;
      this.vocabularySet := vocabularySet;
      dismissed := false;
    }

    /** The title field as the dialog opens it. */
    function Form(): (title: string)
      ensures title == vocabularySet.title
    {
      vocabularySet.title
    }

    /** The save button. A blank title changes nothing; otherwise the set,
        retitled and with its file name and word count kept, replaces the
        first registry entry with its file name; the listener receives
        exactly the stored set and the dialog closes. Which sets count as
        user-created does not change. */
    method OnSaveClicked(title: string) returns (outcome: Result<VocabularySet, InputError>)
      modifies this, dataManager.prefs
      ensures ValidateTitle(title).Err? ==> outcome == Err(EmptyTitle)
      ensures outcome.Err? ==> unchanged(dataManager.prefs) && dismissed == old(dismissed)
      ensures ValidateTitle(title).Ok? ==> outcome == Ok(vocabularySet.(title := Trim(title)))
      ensures outcome.Ok? ==>
        && dataManager.UserVocabularySets()
             == ReplaceFirst(old(dataManager.UserVocabularySets()),
                             s => HasFileName(s, vocabularySet.jsonFileName), outcome.value)
        && (forall f :: dataManager.IsUserCreatedSet(f) == old(dataManager.IsUserCreatedSet(f)))
        && (forall f :: dataManager.WordsForSet(f) == old(dataManager.WordsForSet(f)))
        && dismissed
    {
      var checked := ValidateTitle(title);
      if checked.Err? {
        return Err(checked.error);
      }
      var updatedSet := VocabularySet(checked.value, vocabularySet.jsonFileName, vocabularySet.wordCount);
      dismissed := true;
      ghost var before := dataManager.UserVocabularySets();
      dataManager.UpdateVocabularySet(updatedSet);
      ReplaceKeepsFileNames(before, updatedSet);
      outcome := Ok(updatedSet);
    }

    /** The confirmation of the delete button: the set leaves the registry
        together with its stored words; the listener receives the original
        set and the dialog closes. */
    method OnDeleteConfirmed() returns (deleted: VocabularySet)
      modifies this, dataManager.prefs
      ensures deleted == vocabularySet
      ensures dataManager.UserVocabularySets()
        == RemoveAll(old(dataManager.UserVocabularySets()), s => HasFileName(s, vocabularySet.jsonFileName))
      ensures !dataManager.IsUserCreatedSet(vocabularySet.jsonFileName)
      ensures dataManager.WordsForSet(vocabularySet.jsonFileName) == []
      ensures forall f :: f != vocabularySet.jsonFileName ==> dataManager.WordsForSet(f) == old(dataManager.WordsForSet(f))
      ensures dismissed
    {
      dataManager.DeleteVocabularySet(vocabularySet.jsonFileName);
      deleted := vocabularySet;
      dismissed := true;
    }
  }
}
