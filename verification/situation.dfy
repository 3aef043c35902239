/** A snapshot of Karel's location, heading and beeper bag together with the beeper count
    of every corner; used as the initial and as the goal configuration. */
module Situations {
  import opened Decimal
  import opened Grid
  import opened Compass

  datatype Situation = Situation(
    karelGridLocation: GridLocation,
    karelCompassDirection: CompassDirection,
    karelBeeperCount: int,
    gridLocationBeeperCounts: map<GridLocation, int>)

  /** The corners whose count is positive. */
  function NonZeroKeys(counts: map<GridLocation, int>): (keys: set<GridLocation>)
    ensures forall l :: l in keys <==> l in counts && counts[l] > 0
  {
    set l | l in counts && counts[l] > 0
  }

  /** A minimal element of a non-empty finite set of locations. */
  lemma {:induction false} MinimumExists(s: set<GridLocation>)
    requires s != {}
    ensures exists m :: m in s && forall x :: x in s ==> !Less(x, m)
    decreases |s|
  {
    var y :| y in s;
    if s != {y} {
      var rest := s - {y};
      MinimumExists(rest);
      var m :| m in rest && forall x :: x in rest ==> !Less(x, m);
      if Less(y, m) {
        forall x | x in s
          ensures !Less(x, y)
        {
          if x != y {
            assert !Less(x, m);
            LessIsStrictTotalOrder(x, y, m);
          }
        }
      } else {
        assert m in s && forall x :: x in s ==> !Less(x, m);
      }
    }
  }

  /** The elements of s in strictly ascending `<` order. */
  function SortedKeys(s: set<GridLocation>): (keys: seq<GridLocation>)
    ensures |keys| == |s|
    ensures forall l :: l in keys <==> l in s
    ensures forall i, j :: 0 <= i < j < |keys| ==> Less(keys[i], keys[j])
    decreases |s|
  {
    if s == {} then []
    else
      MinimumExists(s);
      var m :| m in s && forall x :: x in s ==> !Less(x, m);
      var rest := SortedKeys(s - {m});
      assert forall l :: l in rest ==> Less(m, l);
      [m] + rest
  }

  /** The corners `description` lists: the positive ones, in ascending order. */
  function ListedLocations(counts: map<GridLocation, int>): (keys: seq<GridLocation>)
    ensures |keys| == |NonZeroKeys(counts)|
    ensures forall l :: l in keys <==> l in counts && counts[l] > 0
    ensures forall i, j :: 0 <= i < j < |keys| ==> Less(keys[i], keys[j])
  {
    SortedKeys(NonZeroKeys(counts))
  }

  /** A line of the dump, terminated by a newline. */
  function Line(text: string): string {
    text + "\n"
  }

  /** The line listing one corner and its count. */
  function EntryLine(l: GridLocation, count: int): string {
    Line("\t" + Grid.Description(l) + ": " + IntToString(count))
  }

  function Entries(counts: map<GridLocation, int>, keys: seq<GridLocation>): string
    requires forall l :: l in keys ==> l in counts
  {
    if keys == [] then "" else EntryLine(keys[0], counts[keys[0]]) + Entries(counts, keys[1..])
  }

  /** The four header lines of `description`, given the printed location, heading and bag
      count. */
  function HeaderLines(place: string, heading: string, bag: string): string {
    Line("karelGridLocation: " + place)
    + Line("karelCompassDirection: " + heading)
    + Line("karelBeeperCount: " + bag)
    + Line("beeperGridLocations:")
  }

  function Header(s: Situation): string {
    HeaderLines(Grid.Description(s.karelGridLocation), Name(s.karelCompassDirection),
                IntToString(s.karelBeeperCount))
  }

  /** The textual dump of a situation. */
  function Description(s: Situation): (r: string)
    ensures |Header(s)| <= |r| && r[..|Header(s)|] == Header(s)
  {
    var counts := s.gridLocationBeeperCounts;
    Header(s) + Entries(counts, ListedLocations(counts))
  }

  /** The beeper map with its zero entries dropped. */
  function Significant(counts: map<GridLocation, int>): (m: map<GridLocation, int>)
    ensures forall l :: l in m <==> l in counts && counts[l] != 0
    ensures forall l :: l in m ==> m[l] == counts[l]
  {
    map l | l in counts && counts[l] != 0 :: counts[l]
  }

  /** Situation equality: the four fields agree, beeper maps compared without their zero
      entries. */
  predicate Equivalent(a: Situation, b: Situation) {
    && a.karelGridLocation == b.karelGridLocation
    && a.karelCompassDirection == b.karelCompassDirection
    && a.karelBeeperCount == b.karelBeeperCount
    && Significant(a.gridLocationBeeperCounts) == Significant(b.gridLocationBeeperCounts)
  }

  lemma EquivalentIsEquivalence(a: Situation, b: Situation, c: Situation)
    ensures Equivalent(a, a)
    ensures Equivalent(a, b) ==> Equivalent(b, a)
    ensures Equivalent(a, b) && Equivalent(b, c) ==> Equivalent(a, c)
  {
  }

  lemma {:induction false} EntriesAgree(c1: map<GridLocation, int>, c2: map<GridLocation, int>, keys: seq<GridLocation>)
    requires forall l :: l in keys ==> l in c1 && l in c2 && c1[l] == c2[l]
    ensures Entries(c1, keys) == Entries(c2, keys)
    decreases |keys|
  {
    if keys != [] {
      EntriesAgree(c1, c2, keys[1..]);
    }
  }

  /** Equal situations are described alike: the dump ignores zero entries. */
  lemma DescriptionRespectsEquivalence(a: Situation, b: Situation)
    requires Equivalent(a, b)
    ensures Description(a) == Description(b)
  {
    var ca, cb := a.gridLocationBeeperCounts, b.gridLocationBeeperCounts;
    assert Significant(ca) == Significant(cb);
    forall l | true
      ensures l in ca && ca[l] > 0 <==> l in cb && cb[l] > 0
    {
      assert l in ca && ca[l] > 0 <==> l in Significant(ca) && Significant(ca)[l] > 0;
      assert l in cb && cb[l] > 0 <==> l in Significant(cb) && Significant(cb)[l] > 0;
    }
    assert NonZeroKeys(ca) == NonZeroKeys(cb);
    var keys := ListedLocations(ca);
    forall l | l in keys
      ensures l in cb && ca[l] == cb[l]
    {
      assert Significant(ca)[l] == ca[l];
      assert Significant(cb)[l] == cb[l];
    }
    EntriesAgree(ca, cb, keys);
  }

  /** Number of occurrences of c in s. */
  function Occurrences(s: string, c: char): nat {
    if s == [] then 0 else (if s[0] == c then 1 else 0) + Occurrences(s[1..], c)
  }

  lemma {:induction false} OccurrencesAppend(a: string, b: string, c: char)
    ensures Occurrences(a + b, c) == Occurrences(a, c) + Occurrences(b, c)
    decreases |a|
  {
    if a == [] {
      assert a + b == b;
    } else {
      assert (a + b)[0] == a[0];
      assert (a + b)[1..] == a[1..] + b;
      OccurrencesAppend(a[1..], b, c);
    }
  }

  lemma {:induction false} NoOccurrences(s: string, c: char)
    requires forall i :: 0 <= i < |s| ==> s[i] != c
    ensures Occurrences(s, c) == 0
    decreases |s|
  {
    if s != [] {
      NoOccurrences(s[1..], c);
    }
  }

  /** A line whose text holds no newline counts once. */
  lemma LineOccurrences(text: string)
    requires forall i :: 0 <= i < |text| ==> text[i] != '\n'
    ensures Occurrences(Line(text), '\n') == 1
  {
    NoOccurrences(text, '\n');
    OccurrencesAppend(text, "\n", '\n');
  }

  lemma {:induction false} EntriesLineCount(counts: map<GridLocation, int>, keys: seq<GridLocation>)
    requires forall l :: l in keys ==> l in counts
    ensures Occurrences(Entries(counts, keys), '\n') == |keys|
    decreases |keys|
  {
    if keys != [] {
      var l := keys[0];
      IntToStringAlphabet(counts[l]);
      LineOccurrences("\t" + Grid.Description(l) + ": " + IntToString(counts[l]));
      OccurrencesAppend(EntryLine(l, counts[l]), Entries(counts, keys[1..]), '\n');
      EntriesLineCount(counts, keys[1..]);
    }
  }

  /** No newline occurs in the text. */
  predicate SingleLine(text: string) {
    forall i :: 0 <= i < |text| ==> text[i] != '\n'
  }

  lemma FourLines(a: string, b: string, c: string, d: string)
    requires SingleLine(a) && SingleLine(b) && SingleLine(c) && SingleLine(d)
    ensures Occurrences(Line(a) + Line(b) + Line(c) + Line(d), '\n') == 4
  {
    LineOccurrences(a);
    LineOccurrences(b);
    LineOccurrences(c);
    LineOccurrences(d);
    OccurrencesAppend(Line(a), Line(b), '\n');
    OccurrencesAppend(Line(a) + Line(b), Line(c), '\n');
    OccurrencesAppend(Line(a) + Line(b) + Line(c), Line(d), '\n');
  }

  lemma LabelledSingleLine(lead: string, text: string)
    requires SingleLine(lead) && SingleLine(text)
    ensures SingleLine(lead + text)
  {
    forall i | 0 <= i < |lead + text|
      ensures (lead + text)[i] != '\n'
    {
      if i >= |lead| {
        assert (lead + text)[i] == text[i - |lead|];
      }
    }
  }

  lemma HeaderLinesCount(place: string, heading: string, bag: string)
    requires SingleLine(place) && SingleLine(heading) && SingleLine(bag)
    ensures Occurrences(HeaderLines(place, heading, bag), '\n') == 4
  {
    LabelledSingleLine("karelGridLocation: ", place);
    LabelledSingleLine("karelCompassDirection: ", heading);
    LabelledSingleLine("karelBeeperCount: ", bag);
    FourLines("karelGridLocation: " + place, "karelCompassDirection: " + heading,
              "karelBeeperCount: " + bag, "beeperGridLocations:");
  }

  /** The header is exactly four lines. */
  lemma HeaderLineCount(s: Situation)
    ensures Occurrences(Header(s), '\n') == 4
  {
    IntToStringAlphabet(s.karelBeeperCount);
    HeaderLinesCount(Grid.Description(s.karelGridLocation), Name(s.karelCompassDirection),
                     IntToString(s.karelBeeperCount));
  }

  /** The dump has exactly one line per header field and one per corner with a positive
      count. */
  lemma DescriptionLineCount(s: Situation)
    ensures Occurrences(Description(s), '\n') == 4 + |NonZeroKeys(s.gridLocationBeeperCounts)|
  {
    var counts := s.gridLocationBeeperCounts;
    HeaderLineCount(s);
    EntriesLineCount(counts, ListedLocations(counts));
    OccurrencesAppend(Header(s), Entries(counts, ListedLocations(counts)), '\n');
  }
}
