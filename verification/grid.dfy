/** Corners of the Karel world: an avenue (x) and a street (y). */
module Grid {
  import opened Decimal

  datatype GridLocation = GridLocation(avenue: int, street: int)

  /** Avenue 1, street 1. */
  const One: GridLocation := GridLocation(1, 1)

  /** The `<` of GridLocation: the tuple comparison of (avenue, street). */
  predicate Less(a: GridLocation, b: GridLocation) {
    if a.avenue != b.avenue then a.avenue < b.avenue else a.street < b.street
  }

  lemma LessIsLexicographic(a: GridLocation, b: GridLocation)
    ensures Less(a, b) <==> a.avenue < b.avenue || (a.avenue == b.avenue && a.street < b.street)
  {
  }

  /** `<` is irreflexive and transitive, and exactly one of `a < b`, `a == b`, `b < a` holds;
      equality is memberwise. */
  lemma LessIsStrictTotalOrder(a: GridLocation, b: GridLocation, c: GridLocation)
    ensures !Less(a, a)
    ensures Less(a, b) && Less(b, c) ==> Less(a, c)
    ensures a == b <==> a.avenue == b.avenue && a.street == b.street
    ensures a != b ==> (Less(a, b) <==> !Less(b, a))
    ensures a == b ==> !Less(a, b) && !Less(b, a)
  {
  }

  /** `"(avenue: a, street: s)"`. */
  function Description(l: GridLocation): (r: string)
    ensures |r| >= 2 && r[0] == '(' && r[|r| - 1] == ')'
    ensures forall i :: 0 <= i < |r| ==> r[i] != '\n' && r[i] != '\t'
  {
    IntToStringAlphabet(l.avenue);
    IntToStringAlphabet(l.street);
    "(avenue: " + IntToString(l.avenue) + ", street: " + IntToString(l.street) + ")"
  }

  /** If two strings that each start with a comma are preceded by comma-free strings,
      equal concatenations split at the same place. */
  lemma SplitAtComma(x1: string, y1: string, x2: string, y2: string)
    requires x1 + y1 == x2 + y2
    requires forall i :: 0 <= i < |x1| ==> x1[i] != ','
    requires forall i :: 0 <= i < |x2| ==> x2[i] != ','
    requires |y1| > 0 && y1[0] == ',' && |y2| > 0 && y2[0] == ','
    ensures x1 == x2 && y1 == y2
  {
    assert x1 == (x1 + y1)[..|x1|];
    assert x2 == (x2 + y2)[..|x2|];
  }

  /** The description with its "(avenue: " prefix removed. */
  lemma DescriptionTail(l: GridLocation)
    ensures Description(l)[9..] == IntToString(l.avenue) + (", street: " + IntToString(l.street) + ")")
  {
  }

  /** Distinct locations are described differently. */
  lemma {:induction false} DescriptionInjective(a: GridLocation, b: GridLocation)
    ensures Description(a) == Description(b) <==> a == b
  {
    if Description(a) == Description(b) {
      var t1 := ", street: " + IntToString(a.street) + ")";
      var t2 := ", street: " + IntToString(b.street) + ")";
      DescriptionTail(a);
      DescriptionTail(b);
      IntToStringAlphabet(a.avenue);
      IntToStringAlphabet(b.avenue);
      SplitAtComma(IntToString(a.avenue), t1, IntToString(b.avenue), t2);
      assert IntToString(a.street) == t1[10..|t1| - 1];
      assert IntToString(b.street) == t2[10..|t2| - 1];
      IntToStringInjective(a.avenue, b.avenue);
      IntToStringInjective(a.street, b.street);
    }
  }
}
