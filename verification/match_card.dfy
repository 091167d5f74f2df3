/** A card of the matching game: immutable face text and pair id, plus four
    independent boolean flags that the game sets and clears. */
module Cards {

  /** The four flags of a card at one moment. */
  datatype CardState = CardState(matched: bool, flipped: bool, wrongPair: bool, correctPair: bool)

  const Idle: CardState := CardState(false, false, false, false)

  /** What a card shows and which pair it belongs to; fixed at construction. */
  datatype Face = Face(text: string, id: int)

  class MatchCard {
    const text: string
    const id: int
    var matched: bool
    var flipped: bool
    var wrongPair: bool
    var correctPair: bool

    /** A new card has all four flags false. */
    constructor (text: string, id: int)
      ensures this.text == text && this.id == id
      ensures State() == Idle
    {
      this.text := text;
      this.id := id;
      matched, flipped, wrongPair, correctPair := false, false, false, false;
    }

    function State(): CardState
      reads this
    {
      CardState(matched, flipped, wrongPair, correctPair)
    }

    function FaceOf(): Face
    {
      Face(text, id)
    }

    /** Each setter stores its argument in its own flag and leaves the other
        three flags as they were. */
    method SetMatched(value: bool)
      modifies this
      ensures State() == old(State()).(matched := value)
    {
      matched := value;
    }

    method SetFlipped(value: bool)
      modifies this
      ensures State() == old(State()).(flipped := value)
    {
      flipped := value;
    }

    method SetWrongPair(value: bool)
      modifies this
      ensures State() == old(State()).(wrongPair := value)
    {
      wrongPair := value;
    }

    method SetCorrectPair(value: bool)
      modifies this
      ensures State() == old(State()).(correctPair := value)
    {
      correctPair := value;
    }
  }
}
