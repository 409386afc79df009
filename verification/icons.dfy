/** The condition-code to glyph resolver (`getWeatherIcon`): a fixed table of
    WMO weather interpretation code groups, each shown with one glyph. */
module Icons {
  import opened Options

  /** One table entry: the codes of a group and the glyph shown for all of them. */
  datatype Entry = Entry(codes: seq<int>, glyph: string)

  /** The marker returned for a code that belongs to no group. */
  const NotFound: string := "NOT FOUND"

  /** The table, in source order. Glyphs are written as code points; the
      U+FE0F variation selector is part of the first, third and fourth glyph. */
  const Table: seq<Entry> := [
    Entry([0], "\U{2600}\U{FE0F}"),                         // sun
    Entry([1], "\U{1F324}"),                                // sun behind small cloud
    Entry([2], "\U{26C5}\U{FE0F}"),                         // sun behind cloud
    Entry([3], "\U{2601}\U{FE0F}"),                         // cloud
    Entry([45, 48], "\U{1F32B}"),                           // fog
    Entry([51, 56, 61, 66, 80], "\U{1F326}"),               // sun behind rain cloud
    Entry([53, 55, 63, 65, 57, 67, 81, 82], "\U{1F327}"),   // rain cloud
    Entry([71, 73, 75, 77, 85, 86], "\U{1F328}"),           // snow cloud
    Entry([95], "\U{1F329}"),                               // lightning cloud
    Entry([96, 99], "\U{26C8}")                             // thunder cloud and rain
  ]

  /** No code belongs to two different entries of `table`. */
  ghost predicate PairwiseDisjoint(table: seq<Entry>) {
    forall i, j, c :: 0 <= i < |table| && 0 <= j < |table| && i != j && c in table[i].codes ==> c !in table[j].codes
  }

  /** No code belongs to any entry of `table`. */
  ghost predicate Unlisted(table: seq<Entry>, code: int) {
    forall i :: 0 <= i < |table| ==> code !in table[i].codes
  }

  /** `find` over the table's keys: the position of the first entry whose
      codes include `code`, or `None` when no entry does. */
  function FindGroup(table: seq<Entry>, code: int): (r: Option<nat>)
    ensures r.None? <==> Unlisted(table, code)
    ensures r.Some? ==> r.value < |table| && code in table[r.value].codes
    ensures r.Some? ==> forall j :: 0 <= j < r.value ==> code !in table[j].codes
  {
    if |table| == 0 then None
    else if code in table[0].codes then Some(0)
    else
      match FindGroup(table[1..], code)
      case None => None
      case Some(i) => Some(i + 1)
  }

  /** Looks `code` up in `table`: the glyph of the entry `find` selects, or
      `NotFound`. Never fails. When the groups are disjoint, the glyph is the
      one of the entry holding the code, whichever position it has. */
  function ResolveIn(table: seq<Entry>, code: int): (g: string)
    ensures Unlisted(table, code) ==> g == NotFound
    ensures PairwiseDisjoint(table) ==>
      forall i :: 0 <= i < |table| && code in table[i].codes ==> g == table[i].glyph
  {
    match FindGroup(table, code)
    case None => NotFound
    case Some(i) => table[i].glyph
  }

  lemma TableDisjoint()
    ensures PairwiseDisjoint(Table)
  {
    forall i, j, c | 0 <= i < |Table| && 0 <= j < |Table| && i != j && c in Table[i].codes
      ensures c !in Table[j].codes
    {
      CodeHasOneGroup(i, c);
      if c in Table[j].codes {
        CodeHasOneGroup(j, c);
      }
    }
  }

  /** The position of the group of each listed code, spelled out code by code
      so that the disjointness proof can compare positions instead of lists. */
  ghost function GroupIndex(c: int): int {
    if c == 0 then 0
    else if c == 1 then 1
    else if c == 2 then 2
    else if c == 3 then 3
    else if c in [45, 48] then 4
    else if c in [51, 56, 61, 66, 80] then 5
    else if c in [53, 55, 63, 65, 57, 67, 81, 82] then 6
    else if c in [71, 73, 75, 77, 85, 86] then 7
    else if c == 95 then 8
    else if c in [96, 99] then 9
    else -1
  }

  /** A listed code's group is at position `GroupIndex` of the code, so no code has two. */
  lemma CodeHasOneGroup(i: nat, c: int)
    requires i < |Table| && c in Table[i].codes
    ensures GroupIndex(c) == i
  {
    if i == 0 { assert c == 0; }
    else if i == 1 { assert c == 1; }
    else if i == 2 { assert c == 2; }
    else if i == 3 { assert c == 3; }
    else if i == 4 { assert c in [45, 48]; }
    else if i == 5 { assert c in [51, 56, 61, 66, 80]; }
    else if i == 6 { assert c in [53, 55, 63, 65, 57, 67, 81, 82]; }
    else if i == 7 { assert c in [71, 73, 75, 77, 85, 86]; }
    else if i == 8 { assert c == 95; }
    else { assert c in [96, 99]; }
  }

  lemma TableGlyphsDiffer()
    ensures forall i :: 0 <= i < |Table| ==> Table[i].glyph != NotFound
  {
  }

  /** `getWeatherIcon`: a listed code gets its group's glyph, and exactly the
      unlisted codes get `NotFound`. */
  function GetWeatherIcon(code: int): (g: string)
    ensures g == NotFound <==> Unlisted(Table, code)
    ensures forall i :: 0 <= i < |Table| && code in Table[i].codes ==> g == Table[i].glyph
  {
    TableDisjoint();
    TableGlyphsDiffer();
    ResolveIn(Table, code)
  }

  /** Every code of the group {51, 56, 61, 66, 80} resolves to the same glyph. */
  lemma DrizzleGroup(code: int)
    requires code in [51, 56, 61, 66, 80]
    ensures GetWeatherIcon(code) == "\U{1F326}"
  {
    assert code in Table[5].codes;
  }

  /** Two codes of one group always share a glyph, for every group of the table. */
  lemma SameGroupSameGlyph(i: nat, a: int, b: int)
    requires i < |Table| && a in Table[i].codes && b in Table[i].codes
    ensures GetWeatherIcon(a) == GetWeatherIcon(b) == Table[i].glyph
  {
  }

  /** Since the groups are disjoint, the order of the table does not matter:
      any rearrangement of a disjoint table resolves every code the same way. */
  lemma {:induction false} ResolveOrderIndependent(t1: seq<Entry>, t2: seq<Entry>, code: int)
    requires multiset(t1) == multiset(t2)
    requires PairwiseDisjoint(t1) && PairwiseDisjoint(t2)
    ensures ResolveIn(t1, code) == ResolveIn(t2, code)
  {
    if i :| 0 <= i < |t1| && code in t1[i].codes {
      assert t1[i] in multiset(t2);
      var j :| 0 <= j < |t2| && t2[j] == t1[i];
      assert code in t2[j].codes;
    } else {
      forall j | 0 <= j < |t2|
        ensures code !in t2[j].codes
      {
        assert t2[j] in multiset(t1);
      }
    }
  }

  /** The glyph shown for a row's code, which `.at` may have read as `undefined`:
      `includes(undefined)` holds for no group, so the marker is shown. */
  function IconFor(code: Option<int>): (g: string)
    ensures g == NotFound <==> code.None? || Unlisted(Table, code.value)
    ensures forall i :: 0 <= i < |Table| && code.Some? && code.value in Table[i].codes ==> g == Table[i].glyph
  {
    match code
    case None => NotFound
    case Some(c) => GetWeatherIcon(c)
  }
}
