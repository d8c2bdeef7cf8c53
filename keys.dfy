/** Key values as the keyboard listener reports them, and the two shift keys
    the trainer recognises (`SHIFT_KEYS` in shift_trainer.py). */
module Keys {

  /** Python's `None` or a value. */
  datatype Option<T> = None | Some(value: T)

  /** A pressed key: the left shift key (`Key.shift`), the right shift key
      (`Key.shift_r`), or any other key, told apart by an opaque code. */
  datatype Key = Shift | ShiftR | Other(code: int)

  /** `SHIFT_KEYS = (Key.shift, Key.shift_r)`, in that order. */
  const ShiftKeys: seq<Key> := [Shift, ShiftR]

  /** The test `key == Key.shift or key == Key.shift_r`. */
  predicate IsShift(k: Key)
  {
    k == Shift || k == ShiftR
  }

  /** The disjunctive test and membership in `SHIFT_KEYS` agree. */
  lemma IsShiftIffInShiftKeys(k: Key)
    ensures IsShift(k) <==> k in ShiftKeys
    ensures IsShift(k) <==> exists i :: 0 <= i < |ShiftKeys| && ShiftKeys[i] == k
  {
    if k == Shift {
      assert ShiftKeys[0] == k;
    } else if k == ShiftR {
      assert ShiftKeys[1] == k;
    }
  }
}
