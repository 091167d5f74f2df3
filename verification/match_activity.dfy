/** The matching game: five words are dealt as ten cards (an English and a
    Vietnamese face per word, sharing the word's index as pair id), the player
    picks two cards, and a delayed continuation either removes a correct pair
    or turns a wrong pair back. */
module Matching {
  import opened Model
  import opened Cards
  import opened CardAdapter
  import opened WordSources
  import Store

  const PAIRS_TO_MATCH: nat := 5

  // ----- the deck -----

  /** The faces dealt for `words`, in dealing order: for word i, its English
      face then its Vietnamese face, both with id i. */
  function Pairs(words: seq<Word>): (r: seq<Face>)
    ensures |r| == 2 * |words|
  {
    if words == [] then []
    else
      var n := |words| - 1;
      Pairs(words[..n]) + [Face(words[n].english, n), Face(words[n].vietnamese, n)]
  }

  function Faces(cards: seq<MatchCard>): (r: seq<Face>)
    ensures |r| == |cards|
  {
    MapSeq((c: MatchCard) => c.FaceOf(), cards)
  }

  /** Dealing the two cards of word i after the cards of the words before it
      gives the faces of the words up to i. */
  lemma DealStep(deal: seq<MatchCard>, english: MatchCard, vietnamese: MatchCard, words: seq<Word>, i: int)
    requires 0 <= i < |words| && Faces(deal) == Pairs(words[..i])
    requires english.FaceOf() == Face(words[i].english, i) && vietnamese.FaceOf() == Face(words[i].vietnamese, i)
    ensures Faces(deal + [english, vietnamese]) == Pairs(words[..i + 1])
  {
    assert Faces([english, vietnamese]) == [Face(words[i].english, i), Face(words[i].vietnamese, i)];
    MapSeqAppend((c: MatchCard) => c.FaceOf(), deal, [english, vietnamese]);
    assert words[..i + 1][..i] == words[..i];
  }

  function Ids(faces: seq<Face>): (r: seq<int>)
    ensures |r| == |faces|
  {
    MapSeq((f: Face) => f.id, faces)
  }

  /** In a fresh deal every pair id below the number of words is carried by
      exactly two faces, and no other id occurs. */
  lemma {:induction false} PairsIdCount(words: seq<Word>, k: int)
    ensures multiset(Ids(Pairs(words)))[k] == if 0 <= k < |words| then 2 else 0
  {
    if words != [] {
      var n := |words| - 1;
      var front := Pairs(words[..n]);
      var tail := [Face(words[n].english, n), Face(words[n].vietnamese, n)];
      assert Pairs(words) == front + tail;
      PairsIdCount(words[..n], k);
      MapSeqAppend((f: Face) => f.id, front, tail);
      assert Ids(tail) == [n, n];
      assert Ids(Pairs(words)) == Ids(front) + [n, n];
      assert multiset(Ids(Pairs(words))) == multiset(Ids(front)) + multiset{n, n};
    }
  }

  /** Position j of a deal holds side j % 2 of word j / 2 (English first). */
  lemma {:induction false} PairsAt(words: seq<Word>, j: int)
    requires 0 <= j < 2 * |words|
    ensures Pairs(words)[j] ==
      Face(if j % 2 == 0 then words[j / 2].english else words[j / 2].vietnamese, j / 2)
  {
    var n := |words| - 1;
    if j < 2 * n {
      PairsAt(words[..n], j);
    }
  }

  /** A face of a deal shows one side of the word its id names. */
  lemma FaceInPairs(words: seq<Word>, face: Face)
    requires face in Pairs(words)
    ensures 0 <= face.id < |words|
    ensures face.text == words[face.id].english || face.text == words[face.id].vietnamese
  {
    var r := Pairs(words);
    var j :| 0 <= j < |r| && r[j] == face;
    PairsAt(words, j);
  }

  /** Whatever order a deal was shuffled into, each card shows one side of
      the word its id names. */
  lemma DealtFaces(cards: seq<MatchCard>, words: seq<Word>, i: int)
    requires multiset(Faces(cards)) == multiset(Pairs(words))
    requires 0 <= i < |cards|
    ensures 0 <= cards[i].id < |words|
    ensures cards[i].text == words[cards[i].id].english || cards[i].text == words[cards[i].id].vietnamese
  {
    var face := Faces(cards)[i];
    assert face in multiset(Faces(cards));
    FaceInPairs(words, face);
  }

  /** Whatever order a deal was shuffled into, each id below the number of
      words sits on exactly two cards, and no other id occurs. */
  lemma DealtIds(cards: seq<MatchCard>, words: seq<Word>)
    requires multiset(Faces(cards)) == multiset(Pairs(words))
    ensures forall k :: multiset(Ids(Faces(cards)))[k] == if 0 <= k < |words| then 2 else 0
  {
    forall k | true
      ensures multiset(Ids(Pairs(words)))[k] == if 0 <= k < |words| then 2 else 0
    {
      PairsIdCount(words, k);
    }
    MapPreservesPermutation((f: Face) => f.id, Faces(cards), Pairs(words));
  }

  // ----- distinct card objects -----

  predicate Distinct<T(==)>(s: seq<T>)
  {
    forall i, j :: 0 <= i < j < |s| ==> s[i] != s[j]
  }

  lemma {:induction false} DistinctCount<T>(s: seq<T>, x: T)
    requires Distinct(s)
    ensures multiset(s)[x] <= 1
  {
    if s != [] {
      var n := |s| - 1;
      assert s == s[..n] + [s[n]];
      assert Distinct(s[..n]);
      DistinctCount(s[..n], x);
      if x == s[n] {
        assert x !in s[..n];
      }
    }
  }

  /** Two new elements, different from each other and from every element
      already present, keep a list without repeats. */
  lemma DistinctStep<T>(s: seq<T>, a: T, b: T)
    requires Distinct(s) && a != b
    requires forall j :: 0 <= j < |s| ==> s[j] != a && s[j] != b
    ensures Distinct(s + [a, b])
  {
  }

  /** Reordering keeps the card objects pairwise distinct. */
  lemma DistinctPermutation<T>(a: seq<T>, b: seq<T>)
    requires Distinct(a) && multiset(a) == multiset(b)
    ensures Distinct(b)
  {
    forall i, j | 0 <= i < j < |b|
      ensures b[i] != b[j]
    {
      if b[i] == b[j] {
        var x := b[i];
        assert b == b[..i] + [x] + b[i + 1..j] + [x] + b[j + 1..];
        assert multiset(b)[x] >= 2;
        DistinctCount(a, x);
        assert false;
      }
    }
  }

  // ----- the game -----

  /** A continuation posted to the main thread's handler by a second pick:
      after 500 ms a correct pair is marked matched; after 1000 ms a wrong
      pair is turned back. Each holds the two card objects it captured. */
  datatype Continuation =
    | MarkMatched(first: MatchCard, clicked: MatchCard)
    | TurnBack(first: MatchCard, clicked: MatchCard)

  /** Flag update of the second pick: both cards go green or both go red. */
  function Marked(s: CardState, same: bool): (r: CardState)
    ensures r.matched == s.matched && r.flipped == s.flipped
    ensures same ==> r.correctPair && r.wrongPair == s.wrongPair
    ensures !same ==> r.wrongPair && r.correctPair == s.correctPair
  {
    if same then s.(correctPair := true) else s.(wrongPair := true)
  }

  /** The two cards of one game word: its English side and its Vietnamese
      side, both carrying the word's index. */
  method NewPair(word: Word, i: int) returns (english: MatchCard, vietnamese: MatchCard)
    ensures fresh(english) && fresh(vietnamese) && english != vietnamese
    ensures english.State() == Idle && vietnamese.State() == Idle
    ensures english.FaceOf() == Face(word.english, i) && vietnamese.FaceOf() == Face(word.vietnamese, i)
  {
    english := new MatchCard(word.english, i);
    vietnamese := new MatchCard(word.vietnamese, i);
  }

  /** The dealing loop of setupNewGame: for each game word, a new card for
      its English side and one for its Vietnamese side, both carrying the
      word's index. */
  method DealCards(gameWords: seq<Word>) returns (deal: seq<MatchCard>)
    ensures Faces(deal) == Pairs(gameWords)
    ensures forall j :: 0 <= j < |deal| ==> fresh(deal[j]) && deal[j].State() == Idle
    ensures Distinct(deal)
  {
    deal := [];
    var i := 0;
    while i < |gameWords|
      invariant 0 <= i <= |gameWords|
      invariant |deal| == 2 * i
      invariant Faces(deal) == Pairs(gameWords[..i])
      invariant forall j :: 0 <= j < |deal| ==> fresh(deal[j]) && deal[j].State() == Idle
      invariant Distinct(deal)
    {
      var english, vietnamese := NewPair(gameWords[i], i);
      DealStep(deal, english, vietnamese, gameWords, i);
      DistinctStep(deal, english, vietnamese);
      deal := deal + [english, vietnamese];
      i := i + 1;
    }
    assert gameWords[..i] == gameWords;
  }

  /** The second shuffle of setupNewGame, over the dealt cards: the same card
      objects in a new order. */
  method ShuffleDeal(deal: seq<MatchCard>, cardDraws: nat -> nat) returns (cards: seq<MatchCard>)
    requires Distinct(deal)
    ensures |cards| == |deal| && multiset(cards) == multiset(deal) && Distinct(cards)
    ensures multiset(Faces(cards)) == multiset(Faces(deal))
    ensures forall j :: 0 <= j < |cards| ==> cards[j] in deal
  {
    cards := Shuffle(deal, cardDraws);
    forall j | 0 <= j < |cards|
      ensures cards[j] in deal
    {
      assert cards[j] in multiset(deal);
    }
    DistinctPermutation(deal, cards);
    MapPreservesPermutation((c: MatchCard) => c.FaceOf(), cards, deal);
  }

  /** The deck of a new round: the dealt cards, shuffled. */
  method NewDeck(gameWords: seq<Word>, cardDraws: nat -> nat) returns (cards: seq<MatchCard>)
    ensures |cards| == 2 * |gameWords| && Distinct(cards)
    ensures forall j :: 0 <= j < |cards| ==> fresh(cards[j]) && cards[j].State() == Idle
    ensures multiset(Faces(cards)) == multiset(Pairs(gameWords))
    ensures forall k :: multiset(Ids(Faces(cards)))[k] == if 0 <= k < |gameWords| then 2 else 0
  {
    var deal := DealCards(gameWords);
    cards := ShuffleDeal(deal, cardDraws);
    forall j | 0 <= j < |cards|
      ensures fresh(cards[j]) && cards[j].State() == Idle
    {
      var m :| 0 <= m < |deal| && deal[m] == cards[j];
    }
    assert |cards| == |Faces(deal)| == |Pairs(gameWords)|;
    DealtIds(cards, gameWords);
  }

  /** The flag updates of a second pick: flip the tapped card, then mark
      both cards green (same pair id) or red. */
  method MarkPair(first: MatchCard, clicked: MatchCard, same: bool)
    modifies first, clicked
    ensures clicked.State() == Marked(old(clicked.State()).(flipped := true), same)
    ensures first != clicked ==> first.State() == Marked(old(first.State()), same)
  {
    clicked.SetFlipped(true);
    if same {
      first.SetCorrectPair(true);
      clicked.SetCorrectPair(true);
    } else {
      first.SetWrongPair(true);
      clicked.SetWrongPair(true);
    }
  }

  /** Body of the correct-pair continuation, for the two cards. */
  method SetBothMatched(first: MatchCard, clicked: MatchCard)
    modifies first, clicked
    ensures first.State() == old(first.State()).(matched := true)
    ensures clicked.State() == old(clicked.State()).(matched := true)
  {
    first.SetMatched(true);
    clicked.SetMatched(true);
  }

  /** Body of the wrong-pair continuation, for the two cards. */
  method TurnBothBack(first: MatchCard, clicked: MatchCard)
    modifies first, clicked
    ensures first.State() == old(first.State()).(flipped := false, wrongPair := false)
    ensures clicked.State() == old(clicked.State()).(flipped := false, wrongPair := false)
  {
    first.SetFlipped(false);
    clicked.SetFlipped(false);
    first.SetWrongPair(false);
    clicked.SetWrongPair(false);
  }

  class MatchActivity {
    var fullWordList: seq<Word>
    var cards: seq<MatchCard>
    var firstCardPosition: int
    var matchedPairs: int
    var isChecking: bool
    /** Continuations posted and not yet run. */
    var pending: seq<Continuation>
    /** How many times the completion dialog has been shown. */
    var completions: nat
    var finished: bool

    ghost predicate Valid()
      reads this
    {
      && (|cards| == 0 || (|cards| == 2 * PAIRS_TO_MATCH && |fullWordList| >= PAIRS_TO_MATCH))
      && Distinct(cards)
      && -1 <= firstCardPosition < |cards|
    }

    /** A fresh deal: ten untouched cards, pairwise distinct, holding the
        faces of the first five words of the (shuffled) word list. */
    ghost predicate Dealt()
      reads this, cards
    {
      && |fullWordList| >= PAIRS_TO_MATCH
      && |cards| == 2 * PAIRS_TO_MATCH
      && (forall i :: 0 <= i < |cards| ==> cards[i].State() == Idle)
      && multiset(Faces(cards)) == multiset(Pairs(fullWordList[..PAIRS_TO_MATCH]))
    }

    /** onCreate: load the set's words; with fewer than five the screen
        closes, otherwise a game is dealt. */
    constructor (store: Store.VocabularyDataManager, fileName: string, asset: Option<seq<Word>>,
                 wordDraws: nat -> nat, cardDraws: nat -> nat)
      ensures Valid()
      ensures var words := MergedWords(store.IsUserCreatedSet(fileName), asset, store.WordsForSet(fileName));
        && (|words| < PAIRS_TO_MATCH ==> finished && fullWordList == words && cards == [])
        && (|words| >= PAIRS_TO_MATCH ==> !finished && multiset(fullWordList) == multiset(words) && Dealt())
      ensures matchedPairs == 0 && firstCardPosition == -1 && !isChecking
      ensures pending == [] && completions == 0
    {
      fullWordList, cards := [], [];
      firstCardPosition, matchedPairs, isChecking := -1, 0, false;
      pending, completions, finished := [], 0, false;
      new;
      LoadWords(store, fileName, asset);
      if |fullWordList| < PAIRS_TO_MATCH {
        finished := true;
      } else {
        SetupNewGame(wordDraws, cardDraws);
      }
    }

    /** loadWords: the merged word list of the set. */
    method LoadWords(store: Store.VocabularyDataManager, fileName: string, asset: Option<seq<Word>>)
      modifies this
      ensures fullWordList == MergedWords(store.IsUserCreatedSet(fileName), asset, store.WordsForSet(fileName))
      ensures cards == old(cards) && firstCardPosition == old(firstCardPosition)
      ensures matchedPairs == old(matchedPairs) && isChecking == old(isChecking)
      ensures pending == old(pending) && completions == old(completions) && finished == old(finished)
    {
      if store.IsUserCreatedSet(fileName) {
        fullWordList := store.WordsForSet(fileName);
      } else {
        var words: seq<Word> := [];
        if asset.Some? {
          words := asset.value;
        }
        fullWordList := words + store.WordsForSet(fileName);
      }
    }

    /** setupNewGame (also the replay button and the completion dialog's
        "play again"): reset the counters, shuffle the word list, deal the
        first five words as ten new cards and shuffle them. Continuations
        still pending from the previous round stay pending. */
    method SetupNewGame(wordDraws: nat -> nat, cardDraws: nat -> nat)
      requires |fullWordList| >= PAIRS_TO_MATCH
      modifies this
      ensures Valid() && Dealt()
      ensures forall i :: 0 <= i < |cards| ==> fresh(cards[i])
      ensures |fullWordList| == old(|fullWordList|) && multiset(fullWordList) == multiset(old(fullWordList))
      ensures matchedPairs == 0 && firstCardPosition == -1 && !isChecking
      ensures pending == old(pending) && completions == old(completions) && finished == old(finished)
    {
      var words := Shuffle(fullWordList, wordDraws);
      var deck := NewDeck(words[..PAIRS_TO_MATCH], cardDraws);
      matchedPairs, firstCardPosition, isChecking := 0, -1, false;
      fullWordList, cards := words, deck;
    }

    /** The part of the game a tap never touches. */
    twostate predicate TapKeeps()
      reads this
    {
      && cards == old(cards) && fullWordList == old(fullWordList) && matchedPairs == old(matchedPairs)
      && completions == old(completions) && finished == old(finished)
    }

    /** A first pick: the card at `position` is selected and flipped. */
    twostate predicate FirstPicked(position: int)
      reads this, cards
    {
      && 0 <= position < |cards| && TapKeeps()
      && !isChecking && firstCardPosition == position && pending == old(pending)
      && cards[position].State() == old(cards[position].State()).(flipped := true)
      && forall i :: 0 <= i < |cards| && i != position ==> cards[i].State() == old(cards[i].State())
    }

    /** A second pick after a first pick at `f`: the tapped card is flipped,
        both cards are marked green when their pair ids agree and red
        otherwise, the board is locked and the matching continuation is
        posted. The tapped card may be the first card itself. */
    twostate predicate SecondPicked(f: int, position: int)
      reads this, cards
    {
      && 0 <= f < |cards| && 0 <= position < |cards| && TapKeeps()
      && var same := cards[f].id == cards[position].id;
      && isChecking && firstCardPosition == f
      && pending == old(pending) + [if same then MarkMatched(cards[f], cards[position])
                                    else TurnBack(cards[f], cards[position])]
      && cards[position].State() == Marked(old(cards[position].State()).(flipped := true), same)
      && (f != position ==> cards[f].State() == Marked(old(cards[f].State()), same))
      && forall i :: 0 <= i < |cards| && i != position && i != f ==> cards[i].State() == old(cards[i].State())
    }

    /** What one handled tap does: nothing while a pair is being checked,
        otherwise a first or a second pick. */
    twostate predicate ClickHandled(position: int)
      reads this, cards
    {
      && -1 <= old(firstCardPosition) < |old(cards)|
      && (old(isChecking) ==>
            && TapKeeps() && isChecking && firstCardPosition == old(firstCardPosition) && pending == old(pending)
            && forall i :: 0 <= i < |cards| ==> cards[i].State() == old(cards[i].State()))
      && (!old(isChecking) && old(firstCardPosition) == -1 ==> FirstPicked(position))
      && (!old(isChecking) && old(firstCardPosition) != -1 ==> SecondPicked(old(firstCardPosition), position))
    }

    /** handleCardClick. */
    method HandleCardClick(position: int)
      requires Valid() && 0 <= position < |cards|
      modifies this, cards
      ensures Valid()
      ensures ClickHandled(position)
    {
      if isChecking {
        return;
      }
      if firstCardPosition == -1 {
        PickFirst(position);
      } else {
        PickSecond(position);
      }
    }

    method PickFirst(position: int)
      requires Valid() && 0 <= position < |cards| && !isChecking
      modifies this, cards[position]
      ensures Valid() && FirstPicked(position)
    {
      firstCardPosition := position;
      cards[position].SetFlipped(true);
    }

    method PickSecond(position: int)
      requires Valid() && 0 <= position < |cards| && firstCardPosition != -1
      modifies this, cards[position], cards[firstCardPosition]
      ensures Valid() && SecondPicked(old(firstCardPosition), position)
    {
      isChecking := true;
      var first, clicked := cards[firstCardPosition], cards[position];
      var same := first.id == clicked.id;
      MarkPair(first, clicked, same);
      pending := pending + [if same then MarkMatched(first, clicked) else TurnBack(first, clicked)];
    }

    /** A tap on grid cell `position`: the adapter's listener forwards it only
        when the card is neither matched nor green. */
    method OnCardTap(position: int)
      requires Valid() && 0 <= position < |cards|
      modifies this, cards
      ensures Valid()
      ensures ForwardsTap(old(cards[position].State())) ==> ClickHandled(position)
      ensures !ForwardsTap(old(cards[position].State())) ==>
        && unchanged(this)
        && forall i :: 0 <= i < |cards| ==> cards[i].State() == old(cards[i].State())
    {
      if ForwardsTap(cards[position].State()) {
        HandleCardClick(position);
      }
    }

    /** The 500 ms continuation of a correct pick: both captured cards become
        matched, the counter goes up, the board unlocks, and the completion
        dialog is shown exactly when the counter is then five. */
    method ResolveMatch(k: nat)
      requires Valid() && k < |pending| && pending[k].MarkMatched?
      modifies this, pending[k].first, pending[k].clicked
      ensures Valid()
      ensures var t := old(pending[k]);
        && t.first.State() == old(t.first.State()).(matched := true)
        && t.clicked.State() == old(t.clicked.State()).(matched := true)
      ensures pending == old(pending[..k] + pending[k + 1..])
      ensures matchedPairs == old(matchedPairs) + 1 && firstCardPosition == -1 && !isChecking
      ensures completions == old(completions) + if matchedPairs == PAIRS_TO_MATCH then 1 else 0
      ensures cards == old(cards) && fullWordList == old(fullWordList) && finished == old(finished)
    {
      var t := pending[k];
      var rest := pending[..k] + pending[k + 1..];
      var pairs := matchedPairs + 1;
      var shown := if pairs == PAIRS_TO_MATCH then completions + 1 else completions;
      SetBothMatched(t.first, t.clicked);
      matchedPairs, firstCardPosition, isChecking, pending, completions := pairs, -1, false, rest, shown;
    }

    /** The 1000 ms continuation of a wrong pick: both captured cards turn
        face down and lose their red mark, and the board unlocks. */
    method ResolveMismatch(k: nat)
      requires Valid() && k < |pending| && pending[k].TurnBack?
      modifies this, pending[k].first, pending[k].clicked
      ensures Valid()
      ensures var t := old(pending[k]);
        && t.first.State() == old(t.first.State()).(flipped := false, wrongPair := false)
        && t.clicked.State() == old(t.clicked.State()).(flipped := false, wrongPair := false)
      ensures pending == old(pending[..k] + pending[k + 1..])
      ensures firstCardPosition == -1 && !isChecking
      ensures matchedPairs == old(matchedPairs) && completions == old(completions)
      ensures cards == old(cards) && fullWordList == old(fullWordList) && finished == old(finished)
    {
      var t := pending[k];
      var rest := pending[..k] + pending[k + 1..];
      TurnBothBack(t.first, t.clicked);
      firstCardPosition, isChecking, pending := -1, false, rest;
    }
  }

  // ----- consequences of the tap guard and the replay button -----

  /** Tapping an idle card twice passes the adapter's guard both times (a
      selected card is grey, not green), takes the correct-pair path with the
      card paired to itself, and once the continuation runs the pair counter
      has gone up although only one card left the board. */
  method SelfTapScoresPair(g: MatchActivity, p: int)
    requires g.Valid() && !g.isChecking && g.firstCardPosition == -1
    requires 0 <= p < |g.cards| && g.cards[p].State() == Idle
    modifies g, g.cards
    ensures g.cards == old(g.cards) && g.pending == old(g.pending)
    ensures g.matchedPairs == old(g.matchedPairs) + 1
    ensures g.cards[p].State() == CardState(true, true, false, true)
    ensures forall i :: 0 <= i < |g.cards| && i != p ==> g.cards[i].State() == old(g.cards[i].State())
  {
    g.OnCardTap(p);
    g.OnCardTap(p);
    assert g.pending[|g.pending| - 1] == MarkMatched(g.cards[p], g.cards[p]);
    g.ResolveMatch(|g.pending| - 1);
  }

  /** Replay is not blocked while a correct pair waits for its continuation:
      the continuation then runs against the new round, crediting a pair that
      was never played in it while every new card is still face down. Four
      real matches of the new round then reach the completion count. */
  method ReplayDuringPendingMatch(g: MatchActivity, a: int, b: int, wordDraws: nat -> nat, cardDraws: nat -> nat)
    requires g.Valid() && !g.isChecking && g.firstCardPosition == -1 && g.pending == []
    requires 0 <= a < |g.cards| && 0 <= b < |g.cards| && a != b
    requires g.cards[a].id == g.cards[b].id
    requires g.cards[a].State() == Idle && g.cards[b].State() == Idle
    modifies g, g.cards
    ensures g.Dealt() && g.pending == []
    ensures g.matchedPairs == 1 && g.firstCardPosition == -1 && !g.isChecking
    ensures forall i :: 0 <= i < |g.cards| ==> g.cards[i].State() == Idle
  {
    g.OnCardTap(a);
    g.OnCardTap(b);
    var old1, old2 := g.cards[a], g.cards[b];
    g.SetupNewGame(wordDraws, cardDraws);
    assert forall i :: 0 <= i < |g.cards| ==> g.cards[i] != old1 && g.cards[i] != old2;
    g.ResolveMatch(0);
  }
}
