/** The segment view a query walks, and why pruning it by sequence bounds loses nothing. */
module Views {
  import opened Json
  import opened Records
  import opened Lines
  import opened Storage
  import opened StorageRuns
  import opened Query

  datatype View = View(content: seq<byte>, first: int, last: int, active: bool)

  function FindSegment(segments: seq<Segment>, name: SegmentName): Option<Segment> {
    if segments == [] then None
    else if segments[0].name == name then Some(segments[0])
    else FindSegment(segments[1..], name)
  }

  /** The listed segments; none when a listed file is missing. */
  function RowViews(rows: seq<SegmentName>, segments: seq<Segment>): Option<seq<View>> {
    if rows == [] then Some([])
    else
      match (FindSegment(segments, rows[0]), RowViews(rows[1..], segments))
      case (Some(x), Some(vs)) => Some([View(x.content, rows[0].first, rows[0].last, false)] + vs)
      case _ => None
  }

  function ActiveView(d: Disk): seq<View> {
    if d.active.None? || ActiveLast(d) == 0 then []
    else [View(d.active.value, FirstSeq(ActiveEntries(d)), ActiveLast(d), true)]
  }

  /** Stable insertion by first sequence. */
  function InsertView(vs: seq<View>, v: View): seq<View> {
    if vs == [] || vs[|vs| - 1].first <= v.first then vs + [v]
    else InsertView(vs[..|vs| - 1], v) + [vs[|vs| - 1]]
  }

  function SortViews(vs: seq<View>): seq<View> {
    if vs == [] then [] else InsertView(SortViews(vs[..|vs| - 1]), vs[|vs| - 1])
  }

  function SegmentViews(d: Disk): Option<seq<View>> {
    match d.manifest
    case None => Some(ActiveView(d))
    case Some(m) =>
      match RowViews(m.rows, d.segments)
      case None => None
      case Some(vs) => Some(SortViews(vs + ActiveView(d)))
  }

  method ListedViews(rows: seq<SegmentName>, segments: seq<Segment>) returns (views: Option<seq<View>>)
    ensures views == RowViews(rows, segments)
  {
    hide FindSegment;
    var vs: seq<View> := [];
    var i := |rows|;
    assert rows[i..] == [];
    while i > 0
      invariant 0 <= i <= |rows|
      invariant RowViews(rows[i..], segments) == Some(vs)
    {
      i := i - 1;
      assert rows[i..][1..] == rows[i + 1..];
      var x := FindSegment(segments, rows[i]);
      if x.None? {
        MissingRow(rows, segments, i);
        return None;
      }
      vs := [View(x.value.content, rows[i].first, rows[i].last, false)] + vs;
    }
    assert rows[0..] == rows;
    return Some(vs);
  }

  predicate Ascending(vs: seq<View>) {
    forall i, j :: 0 <= i < j < |vs| ==> vs[i].first <= vs[j].first
  }

  function WithFirst(vs: seq<View>, first: int): seq<View> {
    if vs == [] then []
    else WithFirst(vs[..|vs| - 1], first) + if vs[|vs| - 1].first == first then [vs[|vs| - 1]] else []
  }

  lemma {:induction false} InsertKeeps(vs: seq<View>, v: View)
    ensures multiset(InsertView(vs, v)) == multiset(vs) + multiset{v}
    decreases |vs|
  {
    if vs != [] && vs[|vs| - 1].first > v.first {
      InsertKeeps(vs[..|vs| - 1], v);
      assert vs == vs[..|vs| - 1] + [vs[|vs| - 1]];
    }
  }

  lemma {:induction false} InsertAscends(vs: seq<View>, v: View)
    requires Ascending(vs)
    ensures Ascending(InsertView(vs, v))
    decreases |vs|
  {
    if vs != [] && vs[|vs| - 1].first > v.first {
      var front, last := vs[..|vs| - 1], vs[|vs| - 1];
      InsertAscends(front, v);
      InsertKeeps(front, v);
      var inserted := InsertView(front, v);
      forall i | 0 <= i < |inserted|
        ensures inserted[i].first <= last.first
      {
        assert inserted[i] in multiset(inserted);
        assert inserted[i] in front || inserted[i] == v;
      }
    }
  }

  lemma {:induction false} InsertIsStable(vs: seq<View>, v: View, first: int)
    ensures WithFirst(InsertView(vs, v), first) == WithFirst(vs, first) + if v.first == first then [v] else []
    decreases |vs|
  {
    if vs != [] && vs[|vs| - 1].first > v.first {
      var front, last := vs[..|vs| - 1], vs[|vs| - 1];
      InsertIsStable(front, v, first);
      var inserted := InsertView(front, v);
      assert (inserted + [last])[..|inserted|] == inserted;
    } else {
      assert (vs + [v])[..|vs|] == vs;
    }
  }

  /** Sorting orders the views by first sequence, keeps every one of them, and keeps views
      with the same first sequence in the order they came. */
  lemma {:induction false} SortedByFirst(vs: seq<View>)
    ensures Ascending(SortViews(vs))
    ensures multiset(SortViews(vs)) == multiset(vs)
    ensures forall first :: WithFirst(SortViews(vs), first) == WithFirst(vs, first)
    decreases |vs|
  {
    hide InsertView;
    if vs != [] {
      var front, last := vs[..|vs| - 1], vs[|vs| - 1];
      SortedByFirst(front);
      InsertKeeps(SortViews(front), last);
      InsertAscends(SortViews(front), last);
      assert vs == front + [last];
      forall first
        ensures WithFirst(SortViews(vs), first) == WithFirst(vs, first)
      {
        InsertIsStable(SortViews(front), last, first);
      }
    }
  }

  /** The views ordered by first sequence, stably. */
  method SortByFirst(vs: seq<View>) returns (sorted: seq<View>)
    ensures sorted == SortViews(vs)
    ensures Ascending(sorted) && multiset(sorted) == multiset(vs)
    ensures forall first :: WithFirst(sorted, first) == WithFirst(vs, first)
  {
    hide InsertView;
    sorted := [];
    var j := 0;
    while j < |vs|
      invariant 0 <= j <= |vs|
      invariant sorted == SortViews(vs[..j])
    {
      assert vs[..j + 1][..j] == vs[..j];
      sorted := InsertView(sorted, vs[j]);
      j := j + 1;
    }
    assert vs[..j] == vs;
    SortedByFirst(vs);
  }

  method SegmentView(d: Disk, chunkSize: nat) returns (views: Option<seq<View>>)
    requires chunkSize >= 1
    ensures views == SegmentViews(d)
  {
    hide Entries;
    hide RowViews;
    hide SortViews;
    var tail: seq<View> := [];
    if d.active.Some? {
      var first, last := SeqBoundsForFile(d.active.value, chunkSize);
      if last != 0 {
        tail := [View(d.active.value, first, last, true)];
      }
    }
    assert tail == ActiveView(d);
    if d.manifest.None? {
      return Some(tail);
    }
    var listed := ListedViews(d.manifest.value.rows, d.segments);
    if listed.None? {
      return None;
    }
    var sorted := SortByFirst(listed.value + tail);
    return Some(sorted);
  }

  lemma {:induction false} MissingRow(rows: seq<SegmentName>, segments: seq<Segment>, i: nat)
    requires i < |rows| && FindSegment(segments, rows[i]).None?
    ensures RowViews(rows, segments).None?
    decreases i
  {
    if i > 0 {
      MissingRow(rows[1..], segments, i - 1);
    }
  }

  // ------------------------------------------------------ the settled view

  function ViewEntries(vs: seq<View>): seq<LogEntry> {
    if vs == [] then [] else Entries(vs[0].content) + ViewEntries(vs[1..])
  }

  /** Exact bounds, rising within a file and from one file to the next. */
  predicate ViewsOk(vs: seq<View>) {
    && (forall i :: 0 <= i < |vs| ==> ViewOk(vs[i]))
    && (forall i, j :: 0 <= i < j < |vs| ==> vs[i].last < vs[j].first)
  }

  predicate ViewOk(v: View) {
    var es := Entries(v.content);
    && es != []
    && Increasing(es)
    && v.first == FirstSeq(es)
    && v.last == LastSeq(es)
    && v.first <= v.last
  }

  function ViewOf(x: Segment): View {
    View(x.content, x.name.first, x.name.last, false)
  }

  function ViewsOf(segments: seq<Segment>): seq<View> {
    seq(|segments|, i requires 0 <= i < |segments| => ViewOf(segments[i]))
  }

  lemma {:induction false} StackedFinds(segments: seq<Segment>, from: int, i: nat)
    requires Stacked(segments, from) && from > 0 && i < |segments|
    ensures FindSegment(segments, segments[i].name) == Some(segments[i])
    decreases i
  {
    hide Entries;
    hide Increasing;
    if i > 0 {
      RisingEnds(Entries(segments[0].content), from);
      StackedCovers(segments[1..], segments[0].name.last + 1);
      assert segments[i] in segments[1..];
      StackedFinds(segments[1..], segments[0].name.last + 1, i - 1);
    }
  }

  lemma {:induction false} StackedRowViews(segments: seq<Segment>, i: nat)
    requires Stacked(segments, 1) && i <= |segments|
    ensures RowViews(Names(segments)[i..], segments) == Some(ViewsOf(segments)[i..])
    decreases |segments| - i
  {
    hide Entries;
    if i < |segments| {
      StackedRowViews(segments, i + 1);
      StackedFinds(segments, 1, i);
      var rows, vs := Names(segments)[i..], ViewsOf(segments)[i..];
      assert rows[0] == segments[i].name && rows[1..] == Names(segments)[i + 1..];
      assert vs == [ViewOf(segments[i])] + ViewsOf(segments)[i + 1..];
    } else {
      assert Names(segments)[i..] == [] && ViewsOf(segments)[i..] == [];
    }
  }

  lemma SoundSegmentView(x: Segment, from: int)
    requires SegmentSound(x, from)
    ensures ViewOk(ViewOf(x))
  {
    hide Entries;
    hide Increasing;
    RisingEnds(Entries(x.content), from);
  }

  lemma ViewsCons(v: View, vs: seq<View>)
    requires ViewOk(v) && ViewsOk(vs) && forall w :: w in vs ==> v.last < w.first
    ensures ViewsOk([v] + vs)
    ensures ViewEntries([v] + vs) == Entries(v.content) + ViewEntries(vs)
  {
    hide Entries;
    hide ViewOk;
    var all := [v] + vs;
    assert all[1..] == vs;
    forall i, j | 0 <= i < j < |all|
      ensures all[i].last < all[j].first
    {
      assert all[j] == vs[j - 1] && vs[j - 1] in vs;
      if i > 0 {
        assert all[i] == vs[i - 1];
      }
    }
  }

  lemma {:induction false} StackedViewsOk(segments: seq<Segment>, from: int)
    requires Stacked(segments, from) && from > 0
    ensures ViewsOk(ViewsOf(segments))
    ensures ViewEntries(ViewsOf(segments)) == Covered(segments)
    ensures forall v :: v in ViewsOf(segments) ==> from <= v.first && v.last < NextSeq(segments, from)
    decreases |segments|
  {
    hide Entries;
    hide ViewOk;
    if segments != [] {
      hide ViewEntries;
      hide ViewsOk;
      var next := segments[0].name.last + 1;
      StackedCovers(segments, from);
      assert segments[0] in segments;
      StackedViewsOk(segments[1..], next);
      SoundSegmentView(segments[0], from);
      assert ViewsOf(segments) == [ViewOf(segments[0])] + ViewsOf(segments[1..]);
      ViewsCons(ViewOf(segments[0]), ViewsOf(segments[1..]));
    }
  }

  lemma {:induction false} SortedStays(vs: seq<View>)
    requires Ascending(vs)
    ensures SortViews(vs) == vs
    decreases |vs|
  {
    if vs != [] {
      var shorter := vs[..|vs| - 1];
      SortedStays(shorter);
      assert vs == shorter + [vs[|vs| - 1]];
    }
  }

  lemma OkIsAscending(vs: seq<View>)
    requires ViewsOk(vs)
    ensures Ascending(vs)
  {
    hide Entries;
    forall i, j | 0 <= i < j < |vs|
      ensures vs[i].first <= vs[j].first
    {
      assert ViewOk(vs[i]);
    }
  }

  lemma {:induction false} ViewEntriesConcat(a: seq<View>, b: seq<View>)
    ensures ViewEntries(a + b) == ViewEntries(a) + ViewEntries(b)
    decreases |a|
  {
    hide Entries;
    if a == [] {
      assert a + b == b;
    } else {
      assert (a + b)[1..] == a[1..] + b;
      ViewEntriesConcat(a[1..], b);
    }
  }

  /** On a settled log the view is the files in order, with exact bounds. */
  lemma SettledViews(d: Disk)
    requires Settled(d)
    ensures SegmentViews(d) == Some(ViewsOf(d.segments) + ActiveView(d))
    ensures ViewsOk(ViewsOf(d.segments) + ActiveView(d))
    ensures ViewEntries(ViewsOf(d.segments) + ActiveView(d)) == AllEntries(d)
  {
    hide Entries;
    hide ViewsOk;
    hide ViewEntries;
    var vs, active := ViewsOf(d.segments), ActiveView(d);
    StackedRowViews(d.segments, 0);
    assert Names(d.segments)[0..] == Names(d.segments) && vs[0..] == vs;
    StackedViewsOk(d.segments, 1);
    ActiveViewEntries(d);
    ViewEntriesConcat(vs, active);
    SettledViewsOk(d);
    OkIsAscending(vs + active);
    SortedStays(vs + active);
    if d.manifest.None? {
      assert vs + active == active;
    }
  }

  lemma ActiveViewEntries(d: Disk)
    requires Settled(d)
    ensures ViewEntries(ActiveView(d)) == ActiveEntries(d)
    ensures ActiveEntries(d) == [] <==> ActiveView(d) == []
  {
    hide Entries;
    hide Increasing;
    BoundsOfActive(d);
    var vs := ActiveView(d);
    if vs != [] {
      assert vs[1..] == [];
      assert ViewEntries(vs) == Entries(vs[0].content) + ViewEntries(vs[1..]);
      assert ViewEntries(vs[1..]) == [];
    }
  }

  lemma ViewsSnoc(vs: seq<View>, v: View)
    requires ViewsOk(vs) && ViewOk(v) && forall w :: w in vs ==> w.last < v.first
    ensures ViewsOk(vs + [v])
  {
    hide ViewOk;
    assert forall i :: 0 <= i < |vs| ==> vs[i] in vs;
  }

  lemma SettledViewsOk(d: Disk)
    requires Settled(d)
    ensures ViewsOk(ViewsOf(d.segments) + ActiveView(d))
  {
    hide Entries;
    hide ViewsOk;
    StackedViewsOk(d.segments, 1);
    ActiveViewEntries(d);
    hide Increasing;
    BoundsOfActive(d);
    var vs := ViewsOf(d.segments);
    if ActiveView(d) == [] {
      assert vs + [] == vs;
    } else {
      ViewsSnoc(vs, ActiveView(d)[0]);
      assert ActiveView(d) == [ActiveView(d)[0]];
    }
  }

  // ---------------------------------------------------------------- pruning

  lemma ViewMembers(v: View)
    requires ViewOk(v)
    ensures forall e :: e in Entries(v.content) ==> v.first <= e.seqNo <= v.last
  {
    hide Entries;
    var es := Entries(v.content);
    forall e | e in es
      ensures v.first <= e.seqNo <= v.last
    {
      var i :| 0 <= i < |es| && es[i] == e;
    }
  }

  lemma {:induction false} LaterViewMembers(vs: seq<View>, bound: int)
    requires forall i :: 0 <= i < |vs| ==> ViewOk(vs[i]) && vs[i].first > bound
    ensures forall e :: e in ViewEntries(vs) ==> e.seqNo > bound
    decreases |vs|
  {
    hide Entries;
    if vs != [] {
      ViewMembers(vs[0]);
      LaterViewMembers(vs[1..], bound);
    }
  }

  lemma {:induction false} EarlierViewMembers(vs: seq<View>, bound: int)
    requires forall i :: 0 <= i < |vs| ==> ViewOk(vs[i]) && vs[i].last < bound
    ensures forall e :: e in ViewEntries(vs) ==> e.seqNo < bound
    decreases |vs|
  {
    hide Entries;
    if vs != [] {
      ViewMembers(vs[0]);
      EarlierViewMembers(vs[1..], bound);
    }
  }

  function Remaining(limit: Option<nat>, n: nat): Option<nat>
    requires limit.Some? ==> n <= limit.value
  {
    match limit { case None => None case Some(m) => Some(m - n) }
  }

  /** One file's share of the answer. */
  lemma AheadFile(results: seq<LogEntry>, es: seq<LogEntry>, rest: seq<LogEntry>, spec: QuerySpec, limit: Option<nat>,
                  goal: seq<LogEntry>)
    requires Ahead(results, es + rest, spec, limit, goal)
    ensures var more := results + Take(Remaining(limit, |results|), Select(es, spec));
            if limit.Some? && |more| >= limit.value then more == goal
            else Ahead(more, rest, spec, limit, goal)
  {
    hide Wanted;
    SelectConcat(es, rest, spec);
    assert results + (Select(es, spec) + Select(rest, spec)) == results + Select(es, spec) + Select(rest, spec);
  }

  /** A file outside the bounds contributes nothing. */
  lemma AheadSkip(results: seq<LogEntry>, es: seq<LogEntry>, rest: seq<LogEntry>, spec: QuerySpec, limit: Option<nat>,
                  goal: seq<LogEntry>)
    requires Ahead(results, es + rest, spec, limit, goal)
    requires forall e :: e in es ==> !InRange(e, spec)
    ensures Ahead(results, rest, spec, limit, goal)
  {
    hide Wanted;
    SelectConcat(es, rest, spec);
    SelectNone(es, spec);
    assert [] + Select(rest, spec) == Select(rest, spec);
  }
}
