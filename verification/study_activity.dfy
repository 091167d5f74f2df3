/** The flash-card study screen: the set's words in shuffled order, one card
    at a time, with wrap-around navigation and a front/back flip. */
module Study {
  import opened Model
  import opened Text
  import opened WordSources
  import Store

  // ----- what the card shows -----

  const EXAMPLE_PREFIX: string := "\U{1F4DD} "
  const TIP_PREFIX: string := "\U{1F4A1} "

  /** The text of each card field, None when the field is hidden (GONE). */
  datatype CardView = CardView(
    english: string,
    vietnamese: string,
    pronunciation: Option<string>,
    example: Option<string>,
    memoryTip: Option<string>)

  /** displayCurrentWord's choice of fields: the pronunciation is shown when
      present and non-empty; the example and the memory tip when present and
      not blank after trimming, each behind its marker. */
  function ViewOf(w: Word): (v: CardView)
    ensures v.english == w.english && v.vietnamese == w.vietnamese
    ensures v.pronunciation.Some? <==> w.pronunciation.Some? && w.pronunciation.value != ""
    ensures v.pronunciation.Some? ==> v.pronunciation.value == w.pronunciation.value
    ensures v.example.Some? <==> w.example.Some? && !IsBlank(w.example.value)
    ensures v.example.Some? ==> v.example.value == EXAMPLE_PREFIX + w.example.value
    ensures v.memoryTip.Some? <==> w.memoryTip.Some? && !IsBlank(w.memoryTip.value)
    ensures v.memoryTip.Some? ==> v.memoryTip.value == TIP_PREFIX + w.memoryTip.value
  {
    CardView(
      w.english,
      w.vietnamese,
      if w.pronunciation.Some? && w.pronunciation.value != "" then w.pronunciation else None,
      if w.example.Some? && !IsBlank(w.example.value) then Some(EXAMPLE_PREFIX + w.example.value) else None,
      if w.memoryTip.Some? && !IsBlank(w.memoryTip.value) then Some(TIP_PREFIX + w.memoryTip.value) else None)
  }

  /** A word saved by the add or edit dialog never shows an example or a
      memory tip, and shows its pronunciation exactly when one was typed. */
  lemma DialogWordView(english: string, vietnamese: string, pronunciation: string)
    ensures var v := ViewOf(NewWord(english, vietnamese, pronunciation));
      && v.example == None && v.memoryTip == None
      && (v.pronunciation.Some? <==> pronunciation != [])
  {
  }

  /** A blank example stays hidden, however many spaces it holds. */
  lemma BlankExampleHidden(w: Word)
    requires w.example.Some? && forall i :: 0 <= i < |w.example.value| ==> w.example.value[i] == ' '
    ensures ViewOf(w).example == None
  {
  }

  // ----- navigation -----

  /** showNextWord's index: one forward, wrapping from the last card to the
      first. */
  function NextIndex(i: int, n: int): (r: int)
    requires 0 <= i < n
    ensures 0 <= r < n
    ensures i < n - 1 ==> r == i + 1
    ensures i == n - 1 ==> r == 0
  {
    (i + 1) % n
  }

  /** showPreviousWord's index: one back, wrapping from the first card to the
      last. */
  function PreviousIndex(i: int, n: int): (r: int)
    requires 0 <= i < n
    ensures 0 <= r < n
    ensures i > 0 ==> r == i - 1
    ensures i == 0 ==> r == n - 1
  {
    if i > 0 then i - 1 else n - 1
  }

  lemma PreviousUndoesNext(i: int, n: int)
    requires 0 <= i < n
    ensures PreviousIndex(NextIndex(i, n), n) == i
  {
  }

  lemma NextUndoesPrevious(i: int, n: int)
    requires 0 <= i < n
    ensures NextIndex(PreviousIndex(i, n), n) == i
  {
  }

  /** The index after `k` presses of "next". */
  function Forward(i: int, n: int, k: nat): (r: int)
    requires 0 <= i < n
    ensures 0 <= r < n
  {
    if k == 0 then i else NextIndex(Forward(i, n, k - 1), n)
  }

  /** Before the end of the list, `k` presses of "next" move `k` cards on. */
  lemma {:induction false} ForwardNoWrap(i: int, n: int, k: nat)
    requires 0 <= i < n && i + k < n
    ensures Forward(i, n, k) == i + k
  {
    if k > 0 {
      ForwardNoWrap(i, n, k - 1);
    }
  }

  /** Past the end of the list the count continues from the first card. */
  lemma {:induction false} ForwardWrap(i: int, n: int, k: nat)
    requires 0 <= i < n && n <= i + k < 2 * n
    ensures Forward(i, n, k) == i + k - n
  {
    if i + k - 1 < n {
      ForwardNoWrap(i, n, k - 1);
    } else {
      ForwardWrap(i, n, k - 1);
    }
  }

  /** Presses of "next" needed to go from card i to card j. */
  function Distance(i: int, j: int, n: int): (k: nat)
    requires 0 <= i < n && 0 <= j < n
    ensures k < n
  {
    if j >= i then j - i else j - i + n
  }

  /** Pressing "next" once per card comes back to the starting card, and on
      the way every card of the list is shown. */
  lemma ForwardFullCycle(i: int, n: int)
    requires 0 <= i < n
    ensures Forward(i, n, n) == i
    ensures forall j :: 0 <= j < n ==> Forward(i, n, Distance(i, j, n)) == j
  {
    ForwardWrap(i, n, n);
    forall j | 0 <= j < n
      ensures Forward(i, n, Distance(i, j, n)) == j
    {
      if j >= i {
        ForwardNoWrap(i, n, j - i);
      } else {
        ForwardWrap(i, n, j - i + n);
      }
    }
  }

  // ----- the screen -----

  class StudyActivity {
    var wordList: seq<Word>
    var currentWordIndex: int
    var isCardFlipped: bool
    /** What the card faces show; None before any word is displayed. */
    var shown: Option<CardView>
    var finished: bool

    ghost predicate Valid()
      reads this
    {
      && (finished <==> wordList == [])
      && (wordList != [] ==>
            0 <= currentWordIndex < |wordList| && shown == Some(ViewOf(wordList[currentWordIndex])))
    }

    /** onCreate: load the set, shuffle it and show the first card; an empty
        set closes the screen. */
    constructor (store: Store.VocabularyDataManager, fileName: string, asset: Option<seq<Word>>, draws: nat -> nat)
      ensures Valid()
      ensures var words := MergedWords(store.IsUserCreatedSet(fileName), asset, store.WordsForSet(fileName));
        && |wordList| == |words| && multiset(wordList) == multiset(words)
        && (finished <==> words == [])
      ensures !finished ==> currentWordIndex == 0 && !isCardFlipped
      ensures finished ==> shown == None
    {
      wordList, currentWordIndex, isCardFlipped, shown, finished := [], 0, false, None, false;
      new;
      LoadWords(store, fileName, asset);
      if wordList != [] {
        wordList := Shuffle(wordList, draws);
        DisplayCurrentWord();
      } else {
        finished := true;
      }
    }

    /** loadWords: the merged word list of the set. */
    method LoadWords(store: Store.VocabularyDataManager, fileName: string, asset: Option<seq<Word>>)
      modifies this
      ensures wordList == MergedWords(store.IsUserCreatedSet(fileName), asset, store.WordsForSet(fileName))
      ensures currentWordIndex == old(currentWordIndex) && isCardFlipped == old(isCardFlipped)
      ensures shown == old(shown) && finished == old(finished)
    {
      if store.IsUserCreatedSet(fileName) {
        wordList := store.WordsForSet(fileName);
      } else {
        var words: seq<Word> := [];
        if asset.Some? {
          words := asset.value;
        }
        wordList := words + store.WordsForSet(fileName);
      }
    }

    /** displayCurrentWord: with an index in range, show that word on the
        front face; otherwise nothing changes. */
    method DisplayCurrentWord()
      modifies this
      ensures wordList == old(wordList) && currentWordIndex == old(currentWordIndex) && finished == old(finished)
      ensures 0 <= currentWordIndex < |wordList| ==>
        shown == Some(ViewOf(wordList[currentWordIndex])) && !isCardFlipped
      ensures !(0 <= currentWordIndex < |wordList|) ==>
        shown == old(shown) && isCardFlipped == old(isCardFlipped)
    {
      if 0 <= currentWordIndex < |wordList| {
        shown := Some(ViewOf(wordList[currentWordIndex]));
        isCardFlipped := false;
      }
    }

    method ShowNextWord()
      requires Valid() && !finished
      modifies this
      ensures Valid() && wordList == old(wordList) && finished == old(finished)
      ensures currentWordIndex == NextIndex(old(currentWordIndex), |wordList|)
      ensures !isCardFlipped
    {
      currentWordIndex := (currentWordIndex + 1) % |wordList|;
      DisplayCurrentWord();
    }

    method ShowPreviousWord()
      requires Valid() && !finished
      modifies this
      ensures Valid() && wordList == old(wordList) && finished == old(finished)
      ensures currentWordIndex == PreviousIndex(old(currentWordIndex), |wordList|)
      ensures !isCardFlipped
    {
      if currentWordIndex > 0 {
        currentWordIndex := currentWordIndex - 1;
      } else {
        currentWordIndex := |wordList| - 1;
      }
      DisplayCurrentWord();
    }

    /** flipCard: turns the card over; the word shown does not change. */
    method FlipCard()
      modifies this
      ensures isCardFlipped == !old(isCardFlipped)
      ensures wordList == old(wordList) && currentWordIndex == old(currentWordIndex)
      ensures shown == old(shown) && finished == old(finished)
    {
      isCardFlipped := !isCardFlipped;
    }

    /** The speak button reads the English text aloud when the speech engine
        exists and the text is non-empty. */
    function Utterance(ttsReady: bool): (r: Option<string>)
      reads this
      ensures r.Some? <==> ttsReady && shown.Some? && shown.value.english != []
      ensures r.Some? ==> r.value == shown.value.english
    {
      if ttsReady && shown.Some? && shown.value.english != [] then Some(shown.value.english) else None
    }
  }
}
