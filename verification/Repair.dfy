/** Manifest repair as the loops the opener runs over the segment directory. */
module Repair {
  import opened Json
  import opened Records
  import opened Lines
  import opened Storage

  method RowsKnown(d: Disk) returns (known: bool)
    ensures known == RowsPresent(d)
  {
    var rows := KnownRows(d);
    var names := Names(d.segments);
    var i := 0;
    while i < |rows|
      invariant 0 <= i <= |rows|
      invariant forall j :: 0 <= j < i ==> rows[j] in names
    {
      if rows[i] !in names {
        assert rows[i] in KnownRows(d);
        return false;
      }
      i := i + 1;
    }
    return true;
  }

  predicate Misfit(d: Disk, known: bool, x: Segment) {
    !x.sidecar && BoundsDisagree(x) && !(known && x.name in KnownRows(d))
  }

  method FindMisfit(d: Disk, known: bool) returns (found: bool)
    ensures found <==> exists x :: x in d.segments && Misfit(d, known, x)
  {
    hide Entries;
    var i := 0;
    while i < |d.segments|
      invariant 0 <= i <= |d.segments|
      invariant forall j :: 0 <= j < i ==> !Misfit(d, known, d.segments[j])
    {
      var x := d.segments[i];
      if !x.sidecar && !(known && x.name in KnownRows(d)) {
        var first, last := SeqRangeForFile(x.content);
        if (first != 0 && first != x.name.first) || (last != 0 && last != x.name.last) {
          assert x in d.segments && Misfit(d, known, x);
          return true;
        }
      }
      i := i + 1;
    }
    return false;
  }

  /** Rows, newest sequence, oldest sequence and next generation from one pass over the files. */
  method CollectRows(segments: seq<Segment>, base: int)
    returns (rows: seq<SegmentName>, latest: int, earliest: int, generation: int)
    ensures rows == ListedRows(segments)
    ensures latest == LatestRow(rows) && earliest == EarliestRow(rows) && generation == NextGeneration(rows, base)
  {
    rows, latest, earliest, generation := [], 0, 0, base;
    var i := |segments|;
    assert segments[i..] == [];
    while i > 0
      invariant 0 <= i <= |segments|
      invariant rows == ListedRows(segments[i..])
      invariant latest == LatestRow(rows) && earliest == EarliestRow(rows) && generation == NextGeneration(rows, base)
    {
      i := i - 1;
      assert segments[i..][1..] == segments[i + 1..];
      var n := segments[i].name;
      if Listable(n) {
        assert ([n] + rows)[1..] == rows;
        rows := [n] + rows;
        latest := Max(n.last, latest);
        earliest := if earliest == 0 || n.first < earliest then n.first else earliest;
        generation := Max(n.generation + 1, generation);
      }
    }
    assert segments[0..] == segments;
  }

  /** Rebuilds sidecars and manifest from the files, or refuses. */
  method RepairFiles(d: Disk, chunkSize: nat) returns (r: Option<Disk>)
    requires chunkSize >= 1
    ensures r == if RepairRefuses(d) then None
                 else Some(WithSidecars(d, |d.segments|).(manifest := RepairedManifest(d)))
  {
    hide Entries;
    hide BoundsDisagree;
    var known := RowsKnown(d);
    if !known && d.segments == [] {
      return None;
    }
    var misfit := FindMisfit(d, known);
    if misfit {
      return None;
    }
    if d.manifest.None? && d.segments == [] {
      return Some(WithSidecars(d, 0));
    }
    var base := BaseManifest(d);
    var rows, latest, earliest, generation := CollectRows(d.segments, base.generation);
    var first, last := 0, 0;
    if d.active.Some? {
      first, last := SeqBoundsForFile(d.active.value, chunkSize);
    }
    BoundsAgree(d, first, last);
    var repaired := WithSidecars(d, |d.segments|);
    if d.manifest.Some? || rows != [] {
      var minSeq := if earliest != 0 then earliest
                    else if first != 0 then first
                    else if base.minSeq != 0 then base.minSeq else 1;
      repaired := repaired.(manifest := Some(Manifest(generation, rows, minSeq,
                                                      Max(base.latestSeq, Max(latest, last)))));
    }
    return Some(repaired);
  }

  lemma BoundsAgree(d: Disk, first: int, last: int)
    requires first == FirstSeq(ActiveEntries(d))
    requires last == if first == 0 then 0 else LastSeq(ActiveEntries(d))
    ensures last == ActiveLast(d)
  {
  }
}
