/** The layout of the entry lines of a situation's dump: one line per listed corner, in
    ascending corner order, each naming the corner and its count. */
module SituationEntries {
  import opened Decimal
  import Grid
  import opened Situations

  /** The lines laid end to end. */
  function Joined(lines: seq<string>): string {
    if lines == [] then "" else lines[0] + Joined(lines[1..])
  }

  /** The entries of `keys` are their entry lines laid end to end, in order. */
  lemma {:induction false} EntriesAreJoined(counts: map<Grid.GridLocation, int>, keys: seq<Grid.GridLocation>, lines: seq<string>)
    requires forall l :: l in keys ==> l in counts
    requires |lines| == |keys|
    requires forall i :: 0 <= i < |keys| ==> lines[i] == EntryLine(keys[i], counts[keys[i]])
    ensures Entries(counts, keys) == Joined(lines)
    decreases |keys|
  {
    if keys != [] {
      assert lines[0] == EntryLine(keys[0], counts[keys[0]]);
      forall i | 0 <= i < |keys[1..]|
        ensures lines[1..][i] == EntryLine(keys[1..][i], counts[keys[1..][i]])
      {
        assert lines[1..][i] == lines[i + 1];
      }
      EntriesAreJoined(counts, keys[1..], lines[1..]);
    }
  }

  /** After the four header lines, the dump is exactly the lines listing the corners with a
      positive count in ascending order, line i being a tab, the i-th corner, a colon and
      that corner's count. */
  lemma DescriptionEntries(s: Situation, lines: seq<string>)
    requires |lines| == |ListedLocations(s.gridLocationBeeperCounts)|
    requires forall i :: 0 <= i < |lines| ==>
      lines[i] == Line("\t" + Grid.Description(ListedLocations(s.gridLocationBeeperCounts)[i]) + ": "
                       + IntToString(s.gridLocationBeeperCounts[ListedLocations(s.gridLocationBeeperCounts)[i]]))
    ensures Description(s) == Header(s) + Joined(lines)
  {
    var counts := s.gridLocationBeeperCounts;
    var keys := ListedLocations(counts);
    forall i | 0 <= i < |keys|
      ensures keys[i] in counts && lines[i] == EntryLine(keys[i], counts[keys[i]])
    {
      assert keys[i] in keys;
    }
    EntriesAreJoined(counts, keys, lines);
  }
}
