/** Substring search on strings, as JavaScript's `String.prototype.includes`
    performs it: exact, case-sensitive comparison of characters, no
    normalisation. */
module Strings {

  /** `needle` occurs in `hay` starting at position `i`. */
  predicate OccursAt(needle: string, hay: string, i: nat) {
    i + |needle| <= |hay| && hay[i..i + |needle|] == needle
  }

  /** `needle` occurs somewhere in `hay`. */
  ghost predicate IsSubstring(needle: string, hay: string) {
    exists i: nat :: OccursAt(needle, hay, i)
  }

  /** `hay.includes(needle)`: tries every start position from the left. */
  function Includes(needle: string, hay: string): bool
    decreases |hay|
  {
    if |needle| > |hay| then false
    else if needle <= hay then true
    else Includes(needle, hay[1..])
  }

  /** `Includes` answers true exactly when the needle occurs somewhere in the
      haystack. */
  lemma {:induction false} IncludesIffSubstring(needle: string, hay: string)
    ensures Includes(needle, hay) <==> IsSubstring(needle, hay)
    decreases |hay|
  {
    if |needle| > |hay| {
      assert forall i: nat :: !OccursAt(needle, hay, i);
    } else if needle <= hay {
      assert OccursAt(needle, hay, 0);
    } else {
      IncludesIffSubstring(needle, hay[1..]);
      ShiftOccurrence(needle, hay);
    }
  }

  /** When `needle` is not a prefix of `hay`, every occurrence of it lies in
      the tail of `hay`. */
  lemma ShiftOccurrence(needle: string, hay: string)
    requires |hay| > 0 && !(needle <= hay)
    ensures IsSubstring(needle, hay) <==> IsSubstring(needle, hay[1..])
  {
    if IsSubstring(needle, hay[1..]) {
      var i: nat :| OccursAt(needle, hay[1..], i);
      assert hay[1..][i..i + |needle|] == hay[i + 1..i + 1 + |needle|];
      assert OccursAt(needle, hay, i + 1);
    }
    if IsSubstring(needle, hay) {
      var i: nat :| OccursAt(needle, hay, i);
      if i == 0 {
        assert false;
      }
      assert hay[1..][i - 1..i - 1 + |needle|] == hay[i..i + |needle|];
      assert OccursAt(needle, hay[1..], i - 1);
    }
  }

  /** The empty string occurs in every string, at position 0. */
  lemma EmptyIsSubstring(hay: string)
    ensures IsSubstring("", hay)
    ensures Includes("", hay)
  {
    assert OccursAt("", hay, 0);
    IncludesIffSubstring("", hay);
  }

  /** A non-empty needle whose first character never appears in `hay` does
      not occur in it. */
  lemma AbsentFirstChar(needle: string, hay: string)
    requires |needle| > 0 && needle[0] !in hay
    ensures !Includes(needle, hay)
  {
    forall i: nat
      ensures !OccursAt(needle, hay, i)
    {
      if i + |needle| <= |hay| {
        assert hay[i..i + |needle|][0] == hay[i];
      }
    }
    IncludesIffSubstring(needle, hay);
  }
}
