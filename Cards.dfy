/** `EnhancedCard`: a dealt card and its face-down / face-up lifecycle.

    The Phaser container is reduced to what the game logic reads and writes: its position at
    the end of each movement, whether the face (front, value text and suit) is shown in place
    of the back, the texts and colours on the face, and whether the card was destroyed. */
module Cards {

  import opened Common

  /** The value a card holds. The server sends integers; indexing a payload list past its end
      gives JavaScript's `undefined`, which is kept as its own value. */
  datatype CardValue = Known(n: int) | Undefined

  /** `values[i]` as JavaScript reads it: `undefined` past the end of the list. */
  function ValueAt(values: seq<int>, i: nat): (v: CardValue)
    ensures v.Known? <==> i < |values|
    ensures i < |values| ==> v.n == values[i]
  {
    if i < |values| then Known(values[i]) else Undefined
  }

  /** What the face shows: the value text with its colour, and the suit glyph with its colour. */
  datatype Face = Face(text: string, textColour: string, suit: char, suitColour: string)

  /** The placeholder a new card carries while face down. */
  const HiddenFace := Face("?", "#000", '♠', "#000")

  const Red := "#ff0000"
  const Gold := "#ffd700"
  const Black := "#000000"

  /** The face painted when a card with value `value` is turned over: the value's decimal
      text, red hearts for a 10, gold diamonds for a 9 and black spades for anything else,
      the text always in the suit's colour. */
  function FaceOf(value: int): (f: Face)
    ensures f.text == IntString(value)
    ensures f.textColour == f.suitColour
    ensures f.suit == '♥' <==> value == 10
    ensures f.suit == '♦' <==> value == 9
    ensures f.suit == '♠' <==> value != 10 && value != 9
    ensures f.suitColour == Red <==> value == 10
    ensures f.suitColour == Gold <==> value == 9
    ensures f.suitColour == Black <==> value != 10 && value != 9
  {
    if value == 10 then Face(IntString(value), Red, '♥', Red)
    else if value == 9 then Face(IntString(value), Gold, '♦', Gold)
    else Face(IntString(value), Black, '♠', Black)
  }

  /** Distinct values never look the same once turned over. */
  lemma FaceOfInjective(a: int, b: int)
    requires FaceOf(a) == FaceOf(b)
    ensures a == b
  {
    IntStringInjective(a, b);
  }

  /** A turned card never shows the placeholder: its text is a number, not `?`. */
  lemma FaceOfNotHidden(value: int)
    ensures FaceOf(value) != HiddenFace
  {
    var t := FaceOf(value).text;
    assert IntString(value)[0] == '-' || '0' <= IntString(value)[0] <= '9' by {
      if value >= 0 {
        assert IsDigits(NatString(value));
      }
    }
    assert t[0] != '?';
  }

  /** Where a new card waits before it is dealt: off the left edge, at the height of its
      owner's row. */
  function StagingY(isPlayer: bool): (y: int)
    ensures isPlayer ==> y > 300
    ensures !isPlayer ==> y < 300
  {
    if isPlayer then 600 else 100
  }

  const StagingX := -200

  class Card {
    var value: CardValue
    var revealed: bool
    const isPlayer: bool
    var x: int
    var y: int
    /** Back hidden and front, value text and suit visible. */
    var faceShown: bool
    var face: Face
    var destroyed: bool

    /** A new card is face down, unrevealed, with `?` on its hidden face, waiting off screen. */
    constructor (v: CardValue, player: bool)
      ensures value == v && isPlayer == player
      ensures !revealed && !faceShown && face == HiddenFace && !destroyed
      ensures x == StagingX && y == StagingY(player)
    {
      value := v;
      revealed := false;
      isPlayer := player;
      x := StagingX;
      y := StagingY(player);
      faceShown := false;
      face := HiddenFace;
      destroyed := false;
    }

    /** Moves the card to its place on the table (the movement's end state). */
    method DealTo(tx: int, ty: int)
      modifies this
      ensures x == tx && y == ty
      ensures value == old(value) && revealed == old(revealed) && faceShown == old(faceShown)
      ensures face == old(face) && destroyed == old(destroyed)
    {
      x, y := tx, ty;
    }

    /** The reveal code writes the real value into the card before flipping it. */
    method SetValue(v: CardValue)
      modifies this
      ensures value == v
      ensures revealed == old(revealed) && faceShown == old(faceShown) && face == old(face)
      ensures x == old(x) && y == old(y) && destroyed == old(destroyed)
    {
      value := v;
    }

    /** The middle of a flip, when the card has shrunk to zero width: the back is swapped for
        the face and the face is painted from the value. Painting calls `value.toString()`,
        which throws on `undefined` after the face has already been made visible; `ok` is false
        then, the placeholder stays, and the flip goes no further. */
    method ShowFace() returns (ok: bool)
      modifies this
      ensures faceShown
      ensures ok <==> old(value).Known?
      ensures ok ==> face == FaceOf(old(value).n)
      ensures !ok ==> face == old(face)
      ensures value == old(value) && revealed == old(revealed)
      ensures x == old(x) && y == old(y) && destroyed == old(destroyed)
    {
      faceShown := true;
      match value {
        case Known(n) =>
          face := FaceOf(n);
          ok := true;
        case Undefined =>
          ok := false;
      }
    }

    /** The end of a flip, once the card has grown back: only here does it become revealed. */
    method Settle()
      modifies this
      ensures revealed
      ensures value == old(value) && faceShown == old(faceShown) && face == old(face)
      ensures x == old(x) && y == old(y) && destroyed == old(destroyed)
    {
      revealed := true;
    }

    method Destroy()
      modifies this
      ensures destroyed
      ensures value == old(value) && revealed == old(revealed) && faceShown == old(faceShown)
      ensures face == old(face) && x == old(x) && y == old(y)
    {
      destroyed := true;
    }
  }
}
