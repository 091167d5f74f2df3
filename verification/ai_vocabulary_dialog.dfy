/** The dialog that asks the chat-completions service for a new vocabulary
    set: the checks on its inputs, the remembered interests and style, and
    the set it stores when the words arrive. */
module AiDialog {
  import opened Model
  import opened Text
  import opened Forms
  import opened Store
  import opened Gpt

  /** Preference keys, in the same "flashcard_prefs" file as the store. */
  const KEY_INTERESTS: string := "user_interests"
  const KEY_STYLE: string := "user_style"

  /** The style spinner's entries, the default first. */
  const STYLES: seq<string> := ["Mặc định", "Đơn giản", "Hài hước", "Học thuật", "Trẻ em"]

  const MAX_WORD_COUNT: int := 50

  lemma StylesAreDefaultThenNamed()
    ensures STYLES == [DEFAULT_STYLE] + NAMED_STYLES
  {
  }

  /** The remembered interests and style never overwrite the registry or a
      set's words. */
  lemma PreferenceKeysApart(f: string)
    ensures KEY_INTERESTS != KEY_VOCABULARY_SETS && KEY_STYLE != KEY_VOCABULARY_SETS
    ensures KEY_INTERESTS != WordsKey(f) && KEY_STYLE != WordsKey(f)
  {
    assert KEY_INTERESTS[0] != WordsKey(f)[0];
    assert KEY_STYLE[0] != WordsKey(f)[0];
  }

  // ----- the generate button's checks -----

  /** The toast each rejected click produces, in the order they are checked. */
  datatype GenerateError =
    | MissingApiKey        // the build carries no API key
    | EmptyTopic           // the trimmed topic is empty
    | InvalidWordCount     // the trimmed count is not an integer
    | WordCountOutOfRange  // the count is not in 1..50

  /** What an accepted click asks for. */
  datatype Generation = Generation(topic: string, wordCount: int, interests: string, style: string)

  /** The checks of the generate button, first failure wins: the configured
      key, then the topic, then the count; the interests are trimmed and the
      style is taken as selected. */
  function ValidateGeneration(configApiKey: string, topic: string, wordCountText: string, interests: string, style: string)
    : (r: Result<Generation, GenerateError>)
    ensures r == Err(MissingApiKey) <==> configApiKey == []
    ensures r == Err(EmptyTopic) <==> configApiKey != [] && IsBlank(topic)
    ensures r == Err(InvalidWordCount) <==>
      configApiKey != [] && !IsBlank(topic) && ParseInt(Trim(wordCountText)).None?
    ensures r == Err(WordCountOutOfRange) <==>
      && configApiKey != [] && !IsBlank(topic) && ParseInt(Trim(wordCountText)).Some?
      && !(1 <= ParseInt(Trim(wordCountText)).value <= MAX_WORD_COUNT)
    ensures r.Ok? ==>
      && r.value.topic == Trim(topic) && r.value.topic != []
      && Some(r.value.wordCount) == ParseInt(Trim(wordCountText))
      && 1 <= r.value.wordCount <= MAX_WORD_COUNT
      && r.value.interests == Trim(interests) && r.value.style == style
  {
    if configApiKey == [] then Err(MissingApiKey)
    else
      var t := Trim(topic);
      if t == [] then Err(EmptyTopic)
      else
        var count := ParseInt(Trim(wordCountText));
        if count.None? then Err(InvalidWordCount)
        else if count.value <= 0 || count.value > MAX_WORD_COUNT then Err(WordCountOutOfRange)
        else Ok(Generation(t, count.value, Trim(interests), style))
  }

  /** Every count from 1 to 50, typed as a decimal number, is accepted. */
  lemma AcceptsEveryCountInRange(configApiKey: string, topic: string, n: nat, interests: string, style: string)
    requires configApiKey != [] && !IsBlank(topic) && 1 <= n <= MAX_WORD_COUNT
    ensures ValidateGeneration(configApiKey, topic, DecimalString(n), interests, style)
      == Ok(Generation(Trim(topic), n, Trim(interests), style))
  {
    var s := DecimalString(n);
    assert !IsTrimmed(s[0]) && !IsTrimmed(s[|s| - 1]) by {
      assert IsDigit(s[0]) && IsDigit(s[|s| - 1]);
    }
    TrimOfTrimmed(s);
    ParseDecimal(n);
  }

  /** Counts that parse but lie outside 1..50 are rejected: zero, every
      32-bit count above 50, and every negative count down to -2^31. */
  lemma RejectsCountsOutsideRange(configApiKey: string, topic: string, n: nat, interests: string, style: string)
    requires configApiKey != [] && !IsBlank(topic)
    ensures n == 0 || MAX_WORD_COUNT < n <= INT_MAX ==>
      ValidateGeneration(configApiKey, topic, DecimalString(n), interests, style) == Err(WordCountOutOfRange)
    ensures n <= -INT_MIN ==>
      ValidateGeneration(configApiKey, topic, "-" + DecimalString(n), interests, style) == Err(WordCountOutOfRange)
  {
    var s := DecimalString(n);
    assert IsDigit(s[0]) && IsDigit(s[|s| - 1]);
    TrimOfTrimmed(s);
    var m := "-" + s;
    assert m[|m| - 1] == s[|s| - 1];
    TrimOfTrimmed(m);
    if n <= INT_MAX {
      ParseDecimal(n);
    }
    if n <= -INT_MIN {
      ParseNegativeDecimal(n);
    }
  }

  // ----- the spinner -----

  /** `ArrayAdapter.getPosition`: the first position holding `style`, or -1. */
  function StylePosition(style: string): (i: int)
    ensures -1 <= i < |STYLES|
    ensures i == -1 <==> style !in STYLES
    ensures i >= 0 ==> STYLES[i] == style
  {
    if style == STYLES[0] then 0
    else if style == STYLES[1] then 1
    else if style == STYLES[2] then 2
    else if style == STYLES[3] then 3
    else if style == STYLES[4] then 4
    else -1
  }

  /** Saving the selected style and loading it back selects the same entry. */
  lemma StylePositionRoundTrip(i: nat)
    requires i < |STYLES|
    ensures StylePosition(STYLES[i]) == i
  {
    assert STYLES[2][1] != STYLES[3][1];
  }

  class AIVocabularyDialog {
    const dataManager: VocabularyDataManager
    const service: GPTApiService
    /** The key the build was configured with; empty when there is none. */
    const configApiKey: string
    /** The interests field. */
    var interestsText: string
    /** The selected spinner position. */
    var styleSelection: nat
    var dismissed: bool

    ghost predicate Valid()
      reads this
    {
      styleSelection < |STYLES|
    }

    /** onCreate with loadPreferences: the interests field shows the saved
        interests (empty without any); the spinner selects the saved style
        when it is one of the entries, and stays on the default otherwise. */
    constructor (dataManager: VocabularyDataManager, service: GPTApiService, configApiKey: string)
      ensures this.dataManager == dataManager && this.service == service && this.configApiKey == configApiKey
      ensures Valid() && !dismissed
      ensures interestsText == dataManager.prefs.GetString(KEY_INTERESTS, "")
      ensures var saved := dataManager.prefs.GetString(KEY_STYLE, DEFAULT_STYLE);
        styleSelection == if saved in STYLES then StylePosition(saved) else 0
      ensures KEY_STYLE !in dataManager.prefs.entries ==> STYLES[styleSelection] == DEFAULT_STYLE
    {
      this.dataManager := dataManager;
      this.service := service;
      this.configApiKey := configApiKey;
      var savedInterests := dataManager.prefs.GetString(KEY_INTERESTS, "");
      var savedStyle := dataManager.prefs.GetString(KEY_STYLE, DEFAULT_STYLE);
      interestsText := "";
      if savedInterests != [] {
        interestsText := savedInterests;
      }
      styleSelection := 0;
      var position := StylePosition(savedStyle);
      if position >= 0 {
        styleSelection := position;
      }
      dismissed := false;
    }

    method SelectStyle(position: nat)
      requires position < |STYLES|
      modifies this
      ensures styleSelection == position && Valid()
      ensures interestsText == old(interestsText) && dismissed == old(dismissed)
    {
      styleSelection := position;
    }

    /** The generate button. A rejected click changes nothing. An accepted
        one stores the trimmed interests and the selected style, closes the
        dialog, hands the configured key to the service and sends the
        request for the checked topic and count. */
    method OnGenerateClicked(topic: string, wordCountText: string, interests: string)
      returns (r: Result<ChatRequest, GenerateError>)
      requires Valid()
      modifies this, dataManager.prefs, service
      ensures Valid()
      ensures var checked := ValidateGeneration(configApiKey, topic, wordCountText, interests, STYLES[old(styleSelection)]);
        && (checked.Err? ==> r == Err(checked.error))
        && (checked.Ok? ==>
              && r.Ok? && r.value.maxTokens == MaxTokens(checked.value.wordCount)
              && r.value.messages == [Message("user", UserPrompt(BuildPrompt(checked.value.topic, checked.value.wordCount,
                                                                              Some(checked.value.interests), checked.value.style)))])
      ensures r.Err? ==> unchanged(dataManager.prefs) && unchanged(service) && dismissed == old(dismissed)
      ensures r.Ok? ==>
        && dataManager.prefs.entries == old(dataManager.prefs.entries)
             [KEY_INTERESTS := Text(Trim(interests))][KEY_STYLE := Text(STYLES[old(styleSelection)])]
        && dataManager.UserVocabularySets() == old(dataManager.UserVocabularySets())
        && (forall f :: dataManager.WordsForSet(f) == old(dataManager.WordsForSet(f)))
        && service.apiKey == Some(configApiKey)
        && r.value.authorization == "Bearer " + configApiKey
        && dismissed
      ensures styleSelection == old(styleSelection) && interestsText == old(interestsText)
    {
      var style := STYLES[styleSelection];
      var checked := ValidateGeneration(configApiKey, topic, wordCountText, interests, style);
      if checked.Err? {
        return Err(checked.error);
      }
      var g := checked.value;
      SavePreferences(g.interests, g.style);
      dismissed := true;
      service.SetApiKey(Some(configApiKey));
      var sent := service.GenerateVocabulary(g.topic, g.wordCount, Some(g.interests), g.style);
      r := Ok(sent.value);
    }

    /** savePreferences: the two keys are written; nothing of the store
        changes. */
    method SavePreferences(interests: string, style: string)
      modifies dataManager.prefs
      ensures dataManager.prefs.entries == old(dataManager.prefs.entries)[KEY_INTERESTS := Text(interests)][KEY_STYLE := Text(style)]
      ensures dataManager.prefs.GetString(KEY_INTERESTS, "") == interests
      ensures dataManager.prefs.GetString(KEY_STYLE, DEFAULT_STYLE) == style
      ensures dataManager.UserVocabularySets() == old(dataManager.UserVocabularySets())
      ensures forall f :: dataManager.WordsForSet(f) == old(dataManager.WordsForSet(f))
    {
      dataManager.prefs.PutString(KEY_INTERESTS, interests);
      dataManager.prefs.PutString(KEY_STYLE, style);
      forall f ensures dataManager.WordsForSet(f) == old(dataManager.WordsForSet(f)) {
        PreferenceKeysApart(f);
      }
      PreferenceKeysApart("");
    }

    /** onSuccess at clock reading `millis`, with `title` the set title the
        resources format from the topic. A null or empty word list creates
        nothing. Otherwise a set "ai_<millis>.json" with the title and the
        number of words is registered, the words are stored under it, and
        the listener receives the set. */
    method OnWordsGenerated(words: Option<seq<Word>>, millis: nat, title: string)
      returns (created: Option<VocabularySet>)
      modifies dataManager.prefs
      ensures created.None? <==> words.None? || words.value == []
      ensures created.None? ==> unchanged(dataManager.prefs)
      ensures created.Some? ==>
        && created.value == VocabularySet(title, StampedFileName(AI_PREFIX, millis), |words.value|)
        && dataManager.UserVocabularySets() == old(dataManager.UserVocabularySets()) + [created.value]
        && dataManager.IsUserCreatedSet(created.value.jsonFileName)
        && dataManager.WordsForSet(created.value.jsonFileName) == words.value
        && (forall f :: f != created.value.jsonFileName ==> dataManager.WordsForSet(f) == old(dataManager.WordsForSet(f)))
    {
      if words.None? || words.value == [] {
        return None;
      }
      var fileName := StampedFileName(AI_PREFIX, millis);
      var newSet := VocabularySet(title, fileName, |words.value|);
      dataManager.AddVocabularySet(newSet);
      dataManager.SaveWordsForSet(fileName, words.value);
      created := Some(newSet);
    }

    /** The service's reply, handed to onSuccess or onError. A 2xx reply
        whose body yields words creates a set holding exactly those words;
        every other reply creates nothing and leaves the store as it was. */
    method OnReply(reply: Reply, readEnvelope: string -> Option<Envelope>, readArray: string -> Option<seq<Element>>,
                   millis: nat, title: string)
      returns (created: Option<VocabularySet>)
      modifies dataManager.prefs
      ensures created.Some? <==>
        && reply.Response? && IsSuccessful(reply.code)
        && var words := BodyWords(reply.body, readEnvelope, readArray);
           words.Some? && words.value != []
      ensures created.Some? ==>
        && reply.Response?
        && var words := BodyWords(reply.body, readEnvelope, readArray).value;
           && created.value == VocabularySet(title, StampedFileName(AI_PREFIX, millis), |words|)
           && dataManager.WordsForSet(created.value.jsonFileName) == words
      ensures created.None? ==> unchanged(dataManager.prefs)
      ensures created.Some? ==>
        && dataManager.UserVocabularySets() == old(dataManager.UserVocabularySets()) + [created.value]
        && dataManager.IsUserCreatedSet(created.value.jsonFileName)
        && (forall f :: f != created.value.jsonFileName ==> dataManager.WordsForSet(f) == old(dataManager.WordsForSet(f)))
    {
      var result := VocabularyReply(reply, readEnvelope, readArray);
      if result.Err? {
        return None;
      }
      created := OnWordsGenerated(Some(result.value), millis, title);
    }
  }
}
