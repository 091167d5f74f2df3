/** The grid adapter of the matching game, for the part that decides: which
    appearance a card's flags select, and whether a tap on it reaches the
    game. */
module CardAdapter {
  import opened Model
  import opened Cards

  /** The five renderings `onBindViewHolder` can choose. */
  datatype Appearance =
    | Hidden   // invisible: the pair was resolved
    | Green    // correct pair, waiting for resolution
    | Red      // wrong pair, waiting to turn back
    | Grey     // selected
    | White    // face down

  /** The if/else chain over the flags: matched, then correctPair, then
      wrongPair, then flipped. */
  function AppearanceOf(s: CardState): Appearance
  {
    if s.matched then Hidden
    else if s.correctPair then Green
    else if s.wrongPair then Red
    else if s.flipped then Grey
    else White
  }

  /** Each appearance is selected by exactly the flag combination its place in
      the precedence order implies. */
  lemma AppearancePrecedence(s: CardState)
    ensures AppearanceOf(s) == Hidden <==> s.matched
    ensures AppearanceOf(s) == Green <==> !s.matched && s.correctPair
    ensures AppearanceOf(s) == Red <==> !s.matched && !s.correctPair && s.wrongPair
    ensures AppearanceOf(s) == Grey <==> !s.matched && !s.correctPair && !s.wrongPair && s.flipped
    ensures AppearanceOf(s) == White <==> !s.matched && !s.correctPair && !s.wrongPair && !s.flipped
  {
  }

  /** The click listener's guard: matched and correct-pair cards swallow the
      tap; selected and wrong-pair cards still pass it on. */
  predicate ForwardsTap(s: CardState)
  {
    !s.matched && !s.correctPair
  }

  /** A tap is passed on exactly when the card shows red, grey or white. */
  lemma ForwardsTapIffActive(s: CardState)
    ensures ForwardsTap(s) <==> AppearanceOf(s) in {Red, Grey, White}
  {
  }

  /** What one bound cell shows and, when tapped now, which position it
      reports to the game (None: the tap is swallowed). */
  datatype Binding = Binding(text: string, appearance: Appearance, tap: Option<int>)

  function Bind(cards: seq<MatchCard>, position: int): (b: Binding)
    requires 0 <= position < |cards|
    reads cards
    ensures b.text == cards[position].text
    ensures b.appearance == AppearanceOf(cards[position].State())
    ensures b.tap.Some? <==> ForwardsTap(cards[position].State())
    ensures b.tap.Some? ==> b.tap.value == position
  {
    var s := cards[position].State();
    Binding(cards[position].text, AppearanceOf(s), if ForwardsTap(s) then Some(position) else None)
  }

  function ItemCount(cards: seq<MatchCard>): (n: nat)
    ensures n == |cards|
  {
    |cards|
  }
}
