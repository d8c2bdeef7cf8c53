/** Trial generation: `ShiftTrainer._get_random_key` and the two layout
    tables it draws from. The two calls to `random.choice` become explicit
    picks supplied by the caller. */
module Trials {
  import opened Keys

  /** Characters typed with the LEFT shift key held: keys on the right half
      of a US keyboard (`LEFT_SHIFT_MAP`, 26 entries). */
  const LeftShiftMap: seq<char> :=
    ['^', '&', '*', '(', ')', '_', '+',
     'Y', 'U', 'I', 'O', 'P', '{', '}', '|',
     'H', 'J', 'K', 'L', ':', '"',
     'N', 'M', '<', '>', '?']

  /** Characters typed with the RIGHT shift key held: keys on the left half
      of a US keyboard (`RIGHT_SHIFT_MAP`, 21 entries). */
  const RightShiftMap: seq<char> :=
    ['~', '!', '@', '#', '$', '%',
     'Q', 'W', 'E', 'R', 'T',
     'A', 'S', 'D', 'F', 'G',
     'Z', 'X', 'C', 'V', 'B']

  /** The table `_get_random_key` draws the letter from once the shift is chosen. */
  function MapFor(shift: Key): seq<char>
  {
    if shift == Shift then LeftShiftMap else RightShiftMap
  }

  /** The outcomes of the two `random.choice` calls: an index into
      `SHIFT_KEYS`, then an index into the chosen side's table. */
  datatype Pick = Pick(shiftIndex: nat, letterIndex: nat)

  /** `random.choice` only ever returns an index inside the sequence it is
      given: below 2 for `SHIFT_KEYS`, below 26 or 21 for the tables (see
      ValidPickIsInRange). */
  predicate ValidPick(p: Pick)
  {
    p.shiftIndex < 2 && p.letterIndex < (if p.shiftIndex == 0 then 26 else 21)
  }

  /** ValidPick states exactly that both picks are indices of the sequences
      they are drawn from. */
  lemma ValidPickIsInRange(p: Pick)
    ensures ValidPick(p) <==>
            p.shiftIndex < |ShiftKeys| && p.letterIndex < |MapFor(ShiftKeys[p.shiftIndex])|
  {
  }

  /** `_get_random_key`: choose a shift key, then a letter from that shift's
      table, and return `(letter, shift_key)`. */
  function GetRandomKey(p: Pick): (r: (char, Key))
    requires ValidPick(p)
    ensures r.1 == ShiftKeys[p.shiftIndex]
    ensures r.1 in ShiftKeys && IsShift(r.1)
  {
    var shiftKey := ShiftKeys[p.shiftIndex];
    var letter := if shiftKey == Shift then LeftShiftMap[p.letterIndex]
                  else RightShiftMap[p.letterIndex];
    (letter, shiftKey)
  }

  /** The letter comes from the table of the shift returned with it: the
      left table for `Key.shift`, the right table otherwise. */
  lemma LetterFromChosenTable(p: Pick)
    requires ValidPick(p)
    ensures GetRandomKey(p).1 == Shift ==> GetRandomKey(p).0 in LeftShiftMap
    ensures GetRandomKey(p).1 != Shift ==> GetRandomKey(p).0 in RightShiftMap
  {
  }

  /** The table sizes as the source has them. */
  lemma TableSizes()
    ensures |LeftShiftMap| == 26 && |RightShiftMap| == 21
    ensures |MapFor(Shift)| == 26 && |MapFor(ShiftR)| == 21
  {
  }

  /** Every (letter, shift) pair the tables allow is produced by some pick:
      the converse of GetRandomKey's membership guarantees. */
  lemma TrialReachable(letter: char, shift: Key)
    requires (shift == Shift && letter in LeftShiftMap) || (shift == ShiftR && letter in RightShiftMap)
    ensures exists p :: ValidPick(p) && GetRandomKey(p) == (letter, shift)
  {
    var i := if shift == Shift then 0 else 1;
    var table := MapFor(shift);
    var j :| 0 <= j < |table| && table[j] == letter;
    var p := Pick(i, j);
    assert ValidPick(p) && GetRandomKey(p) == (letter, shift);
  }

  /** The same left-shift characters written as a plain test on `c`; a
      reference the table is checked against, and cheap for the solver. */
  predicate TypedWithLeftShift(c: char)
  {
    c == '^' || c == '&' || c == '*' || c == '(' || c == ')' || c == '_' || c == '+'
    || c == 'Y' || c == 'U' || c == 'I' || c == 'O' || c == 'P' || c == '{' || c == '}'
    || c == '|' || c == 'H' || c == 'J' || c == 'K' || c == 'L' || c == ':' || c == '\"'
    || c == 'N' || c == 'M' || c == '<' || c == '>' || c == '?'
  }

  /** The right-shift characters written as a plain test on `c`. */
  predicate TypedWithRightShift(c: char)
  {
    c == '~' || c == '!' || c == '@' || c == '#' || c == '$' || c == '%' || c == 'Q'
    || c == 'W' || c == 'E' || c == 'R' || c == 'T' || c == 'A' || c == 'S' || c == 'D'
    || c == 'F' || c == 'G' || c == 'Z' || c == 'X' || c == 'C' || c == 'V' || c == 'B'
  }

  lemma LeftShiftMapMembers(c: char)
    ensures c in LeftShiftMap <==> TypedWithLeftShift(c)
  {
  }

  lemma RightShiftMapMembers(c: char)
    ensures c in RightShiftMap <==> TypedWithRightShift(c)
  {
  }

  /** No character is in both tables. */
  lemma TablesDisjoint()
    ensures forall c :: c in LeftShiftMap ==> c !in RightShiftMap
  {
    forall c | c in LeftShiftMap
      ensures c !in RightShiftMap
    {
      LeftShiftMapMembers(c);
      RightShiftMapMembers(c);
    }
  }

  /** The shift a displayed letter calls for, read off the tables. */
  function ShiftFor(letter: char): Option<Key>
  {
    if letter in LeftShiftMap then Some(Shift)
    else if letter in RightShiftMap then Some(ShiftR)
    else None
  }

  /** The displayed letter alone determines the expected shift: whatever the
      picks, the shift GetRandomKey returns is the one its letter calls for. */
  lemma LetterDeterminesShift(p: Pick)
    requires ValidPick(p)
    ensures ShiftFor(GetRandomKey(p).0) == Some(GetRandomKey(p).1)
  {
    TablesDisjoint();
  }
}
