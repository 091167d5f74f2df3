/** What the add and edit dialogs do with the text typed into them before
    anything reaches the store: trim every field, reject a blank English word,
    a blank Vietnamese meaning or a blank set title, and name new set files
    after the clock. */
module Forms {
  import opened Model
  import opened Text

  /** The toast each rejected input produces. */
  datatype InputError =
    | EmptyEnglish      // "please enter the English word"
    | EmptyVietnamese   // "please enter the Vietnamese meaning"
    | EmptyTitle        // "please enter the set name"

  /** The word dialogs' save button: the three fields are trimmed; a blank
      English field is reported before the Vietnamese field is looked at;
      otherwise the word is built with the three-argument constructor. */
  function ValidateWord(english: string, vietnamese: string, pronunciation: string): (r: Result<Word, InputError>)
    ensures r == Err(EmptyEnglish) <==> IsBlank(english)
    ensures r == Err(EmptyVietnamese) <==> !IsBlank(english) && IsBlank(vietnamese)
    ensures r.Ok? <==> !IsBlank(english) && !IsBlank(vietnamese)
    ensures r.Ok? ==> r.value == NewWord(Trim(english), Trim(vietnamese), Trim(pronunciation))
  {
    var e := Trim(english);
    var v := Trim(vietnamese);
    var p := Trim(pronunciation);
    if e == [] then Err(EmptyEnglish)
    else if v == [] then Err(EmptyVietnamese)
    else Ok(NewWord(e, v, p))
  }

  /** A validated word typed back into the form validates to itself. */
  lemma ValidateWordIdempotent(english: string, vietnamese: string, pronunciation: string)
    requires ValidateWord(english, vietnamese, pronunciation).Ok?
    ensures var w := ValidateWord(english, vietnamese, pronunciation).value;
      ValidateWord(w.english, w.vietnamese, w.pronunciation.value) == Ok(w)
  {
    TrimIdempotent(english);
    TrimIdempotent(vietnamese);
    TrimIdempotent(pronunciation);
  }

  /** The fields of the edit form for an existing word: its English and
      Vietnamese text, and its pronunciation or an empty field when it has
      none. */
  datatype WordForm = WordForm(english: string, vietnamese: string, pronunciation: string)

  function Prefill(w: Word): (f: WordForm)
    ensures f.english == w.english && f.vietnamese == w.vietnamese
    ensures w.pronunciation.Some? ==> f.pronunciation == w.pronunciation.value
    ensures w.pronunciation.None? ==> f.pronunciation == []
  {
    WordForm(w.english, w.vietnamese, if w.pronunciation.Some? then w.pronunciation.value else [])
  }

  function ValidateForm(f: WordForm): Result<Word, InputError>
  {
    ValidateWord(f.english, f.vietnamese, f.pronunciation)
  }

  /** Saving the edit form untouched keeps the word's store identity when its
      text is already trimmed, but the saved word has lost any example and
      memory tip it had: the replacement comes from the three-argument
      constructor. */
  lemma UneditedSave(w: Word)
    requires !IsBlank(w.english) && !IsBlank(w.vietnamese)
    requires Trim(w.english) == w.english && Trim(w.vietnamese) == w.vietnamese
    ensures ValidateForm(Prefill(w)).Ok?
    ensures var saved := ValidateForm(Prefill(w)).value;
      && SameEntry(saved, w)
      && saved.example == None && saved.memoryTip == None
  {
  }

  /** The set dialogs' save button: the title is trimmed and must not be
      empty. */
  function ValidateTitle(title: string): (r: Result<string, InputError>)
    ensures r.Err? <==> IsBlank(title)
    ensures r.Err? ==> r.error == EmptyTitle
    ensures r.Ok? ==> r.value == Trim(title) && r.value != [] && Trim(r.value) == r.value
  {
    var t := Trim(title);
    TrimIdempotent(title);
    if t == [] then Err(EmptyTitle) else Ok(t)
  }

  // ----- file names stamped with the clock -----

  const JSON_SUFFIX: string := ".json"
  const USER_PREFIX: string := "user_"
  const AI_PREFIX: string := "ai_"

  /** `prefix + System.currentTimeMillis() + ".json"`. */
  function StampedFileName(prefix: string, millis: nat): (name: string)
    ensures StartsWith(name, prefix) && EndsWith(name, JSON_SUFFIX)
    ensures |name| > |prefix| + |JSON_SUFFIX|
  {
    var name := prefix + DecimalString(millis) + JSON_SUFFIX;
    assert name[..|prefix|] == prefix;
    assert name[|name| - |JSON_SUFFIX|..] == JSON_SUFFIX;
    name
  }

  /** The clock reading can be read back from the file name. */
  lemma StampedMillis(prefix: string, millis: nat)
    ensures var name := StampedFileName(prefix, millis);
      && AllDigits(name[|prefix|..|name| - |JSON_SUFFIX|])
      && DigitsValue(name[|prefix|..|name| - |JSON_SUFFIX|]) == millis
  {
    var name := StampedFileName(prefix, millis);
    assert name[|prefix|..|name| - |JSON_SUFFIX|] == DecimalString(millis);
    DigitsOfDecimal(millis);
  }

  /** Two files created at different milliseconds with the same prefix have
      different names. */
  lemma StampedFileNamesDistinct(prefix: string, a: nat, b: nat)
    requires a != b
    ensures StampedFileName(prefix, a) != StampedFileName(prefix, b)
  {
    StampedMillis(prefix, a);
    StampedMillis(prefix, b);
  }

  /** A set created by hand never takes the file name of a generated one. */
  lemma UserAndAiNamesDistinct(a: nat, b: nat)
    ensures StampedFileName(USER_PREFIX, a) != StampedFileName(AI_PREFIX, b)
  {
    assert StampedFileName(USER_PREFIX, a)[0] == 'u';
    assert StampedFileName(AI_PREFIX, b)[0] == 'a';
  }
}
