/** Value types shared by the whole application: the vocabulary entry, the
    vocabulary-set registry record, and the usual Option/Result wrappers. */
module Model {

  datatype Option<+T> = None | Some(value: T)

  datatype Result<+T, +E> = Ok(value: T) | Err(error: E)

  /** A vocabulary entry. `english` and `vietnamese` are always present; the
      three optional fields are None where the Java object holds null (the
      three-argument constructor leaves `example` and `memoryTip` null, and a
      JSON asset may omit any of them). */
  datatype Word = Word(
    english: string,
    vietnamese: string,
    pronunciation: Option<string>,
    example: Option<string>,
    memoryTip: Option<string>)

  /** The three-argument constructor used by the add and edit dialogs. */
  function NewWord(english: string, vietnamese: string, pronunciation: string): (w: Word)
    ensures w.english == english && w.vietnamese == vietnamese
    ensures w.pronunciation == Some(pronunciation)
    ensures w.example == None && w.memoryTip == None
  {
    Word(english, vietnamese, Some(pronunciation), None, None)
  }

  /** Store identity of a word: two entries with the same English and
      Vietnamese text are the same entry to the store, whatever their other
      fields hold. */
  predicate SameEntry(w: Word, target: Word)
  {
    w.english == target.english && w.vietnamese == target.vietnamese
  }

  /** A user-created vocabulary set as kept in the registry. */
  datatype VocabularySet = VocabularySet(title: string, jsonFileName: string, wordCount: int)
}
