/** The indexed readers of one file: they return exactly the plain filter of its entries. */
module Query {
  import opened Json
  import opened Records
  import opened Lines
  import opened OffsetCache

  // ------------------------------------------------------- the plain filter

  predicate InRange(e: LogEntry, spec: QuerySpec) {
    && (spec.afterSeq.Some? ==> e.seqNo >= spec.afterSeq.value)
    && (spec.beforeSeq.Some? ==> e.seqNo <= spec.beforeSeq.value)
  }

  predicate Wanted(e: LogEntry, spec: QuerySpec) {
    InRange(e, spec) && Matches(e, spec)
  }

  /** Every entry the specification asks for, in the given order. */
  function Select(es: seq<LogEntry>, spec: QuerySpec): seq<LogEntry> {
    if es == [] then []
    else (if Wanted(es[0], spec) then [es[0]] else []) + Select(es[1..], spec)
  }

  function Take<T>(limit: Option<nat>, s: seq<T>): seq<T> {
    if limit.None? || |s| <= limit.value then s else s[..limit.value]
  }

  lemma {:induction false} SelectConcat(a: seq<LogEntry>, b: seq<LogEntry>, spec: QuerySpec)
    ensures Select(a + b, spec) == Select(a, spec) + Select(b, spec)
    decreases |a|
  {
    hide Wanted;
    if a == [] {
      assert a + b == b;
    } else {
      assert (a + b)[1..] == a[1..] + b;
      SelectConcat(a[1..], b, spec);
    }
  }

  lemma SelectOne(e: LogEntry, spec: QuerySpec)
    ensures Select([e], spec) == if Wanted(e, spec) then [e] else []
  {
    hide Wanted;
    assert [e][1..] == [];
    assert Select([e][1..], spec) == [];
  }

  lemma {:induction false} SelectNone(es: seq<LogEntry>, spec: QuerySpec)
    requires forall e :: e in es ==> !InRange(e, spec)
    ensures Select(es, spec) == []
    decreases |es|
  {
    if es != [] {
      SelectNone(es[1..], spec);
    }
  }

  /** Selecting commutes with reading backwards. */
  lemma {:induction false} SelectReversed(es: seq<LogEntry>, spec: QuerySpec)
    ensures Select(Reversed(es), spec) == Reversed(Select(es, spec))
    decreases |es|
  {
    hide Wanted;
    if es != [] {
      SelectReversed(es[1..], spec);
      SelectConcat(Reversed(es[1..]), [es[0]], spec);
      SelectOne(es[0], spec);
      var head: seq<LogEntry> := if Wanted(es[0], spec) then [es[0]] else [];
      ReversedConcat(head, Select(es[1..], spec));
      if head != [] {
        assert head[1..] == [];
        assert Reversed(head) == [] + [es[0]];
      }
    }
  }

  lemma {:induction false} ReversedMembers<T>(s: seq<T>)
    ensures |Reversed(s)| == |s|
    ensures forall x :: x in Reversed(s) <==> x in s
    ensures forall i :: 0 <= i < |s| ==> Reversed(s)[i] == s[|s| - 1 - i]
    decreases |s|
  {
    if s != [] {
      ReversedMembers(s[1..]);
      assert s == [s[0]] + s[1..];
    }
  }

  // --------------------------------------------------------- ascending reader

  lemma LineStep(content: seq<byte>, offset: nat)
    requires offset < |content| && LineStart(content, offset)
    ensures var rest := content[offset..];
            var n := LineLength(rest);
            && content[offset..offset + n] == rest[..n]
            && (offset + n == |content| || LineStart(content, offset + n))
            && Entries(rest) == EntryOf(rest[..n]) + Entries(content[offset + n..])
            && (ParseEntry(rest[..n]).Some? ==> EntryAt(content, ParseEntry(rest[..n]).value.seqNo, offset))
  {
    hide ParseEntry;
    var rest := content[offset..];
    var n := LineLength(rest);
    assert content[offset + n..] == rest[n..];
    assert content[..offset + n][offset + n - 1] == rest[n - 1];
  }

  /** The scan's results so far, followed by what the rest of the file selects, is the answer. */
  predicate Ahead(results: seq<LogEntry>, rest: seq<LogEntry>, spec: QuerySpec, limit: Option<nat>,
                  goal: seq<LogEntry>) {
    && (limit.Some? ==> |results| < limit.value)
    && Take(limit, results + Select(rest, spec)) == goal
  }

  lemma SelectCons(e: LogEntry, rest: seq<LogEntry>, spec: QuerySpec)
    ensures Select([e] + rest, spec) == if Wanted(e, spec) then [e] + Select(rest, spec) else Select(rest, spec)
  {
    hide Wanted;
    assert ([e] + rest)[1..] == rest;
    assert [] + Select(rest, spec) == Select(rest, spec);
  }

  /** What one entry does to an ongoing scan. */
  lemma AheadStep(results: seq<LogEntry>, e: LogEntry, rest: seq<LogEntry>, spec: QuerySpec, limit: Option<nat>,
                  goal: seq<LogEntry>)
    requires Ahead(results, [e] + rest, spec, limit, goal)
    ensures !Wanted(e, spec) ==> Ahead(results, rest, spec, limit, goal)
    ensures Wanted(e, spec) && limit.Some? && |results| + 1 >= limit.value ==> results + [e] == goal
    ensures Wanted(e, spec) && !(limit.Some? && |results| + 1 >= limit.value) ==>
              Ahead(results + [e], rest, spec, limit, goal)
  {
    hide Wanted;
    hide Select;
    SelectCons(e, rest, spec);
    if Wanted(e, spec) {
      assert results + ([e] + Select(rest, spec)) == results + [e] + Select(rest, spec);
      TakeExactly(results + [e], Select(rest, spec), limit);
    }
  }

  lemma TakeExactly<T>(a: seq<T>, b: seq<T>, limit: Option<nat>)
    ensures limit.Some? && |a| == limit.value ==> Take(limit, a + b) == a
  {
  }

  lemma AheadStops(results: seq<LogEntry>, rest: seq<LogEntry>, spec: QuerySpec, limit: Option<nat>,
                   goal: seq<LogEntry>)
    requires Ahead(results, rest, spec, limit, goal)
    requires forall e :: e in rest ==> !InRange(e, spec)
    ensures results == goal
  {
    SelectNone(rest, spec);
    assert results + [] == results;
  }

  /** Where an ascending scan starts, it has not missed anything the query wants. */
  lemma AheadAtStart(c: Cache, files: Files, id: Identity, spec: QuerySpec, limit: Option<nat>)
    requires FilesOk(files) && CacheSound(c, files) && id in files && (limit.Some? ==> limit.value > 0)
    ensures var start := StartOffset(c, spec.afterSeq, Some(id));
            var s := files[id];
            && 0 <= start <= |s| && (start == |s| || LineStart(s, start))
            && Ahead([], Entries(s[start..]), spec, limit, Take(limit, Select(Entries(s), spec)))
            && Increasing(Entries(s[start..]))
            && Pending(Refreshed(c, Some(id)), Entries(s), Entries(s[start..]))
  {
    hide Entries;
    hide LineStart;
    StartNeverSkips(c, files, id, spec.afterSeq);
    var start := StartOffset(c, spec.afterSeq, Some(id));
    var s := files[id];
    var a, b := Entries(s[..start]), Entries(s[start..]);
    SelectNone(a, spec);
    if start == |s| {
      assert s[..start] == s && s[start..] == [];
      NoLines();
      assert a == Entries(s) && b == [];
    } else {
      SelectConcat(a, b, spec);
      assert forall i :: 0 <= i < |b| ==> b[i] == Entries(s)[|a| + i];
    }
    assert [] + Select(b, spec) == Select(b, spec);
  }

  /** Every entry is already cached or still to come. */
  predicate Pending(c: Cache, all: seq<LogEntry>, rest: seq<LogEntry>) {
    forall e :: e in all ==> e.seqNo <= Reach(c) || e in rest
  }

  /** Noting the entry just read keeps the cache sound and nothing is forgotten. */
  lemma NoteStep(c: Cache, files: Files, id: Identity, e: LogEntry, offset: int, all: seq<LogEntry>,
                 rest: seq<LogEntry>)
    requires CacheSound(c, files) && id in files && EntryAt(files[id], e.seqNo, offset)
    requires Pending(Refreshed(c, Some(id)), all, [e] + rest)
    ensures var u := Updated(c, e.seqNo, offset, Some(id));
            CacheSound(u, files) && Pending(Refreshed(u, Some(id)), all, rest)
  {
    hide EntryAt;
    UpdateSound(c, files, id, e.seqNo, offset);
  }

  method QueryAscFile(content: seq<byte>, active: Option<Identity>, current: Option<Identity>,
                      spec: QuerySpec, limit: Option<nat>, cache: ActiveFileOffsetCache, ghost files: Files)
    returns (results: seq<LogEntry>)
    requires limit.Some? ==> limit.value > 0
    requires Increasing(Entries(content))
    requires FilesOk(files) && CacheSound(cache.State(), files)
    requires active.Some? ==> active.value in files && files[active.value] == content
    modifies cache
    ensures results == Take(limit, Select(Entries(content), spec))
    ensures CacheSound(cache.State(), files)
    ensures active.None? ==> cache.State() == old(cache.State())
  {
    hide Entries;
    hide LineStart;
    hide Wanted;
    hide CacheSound;
    hide Ahead;
    hide Pending;
    hide Increasing;
    hide EntryAt;
    hide ParseEntry;
    hide EntryOf;
    hide Updated;
    hide Marked;
    hide Matches;
    hide Select;
    hide Take;
    ghost var goal := Take(limit, Select(Entries(content), spec));
    var offset := 0;
    results := [];
    if active.Some? {
      AheadAtStart(cache.State(), files, active.value, spec, limit);
      RefreshSound(cache.State(), files, active.value);
      offset := cache.StartingOffsetForSeq(spec.afterSeq, active);
    } else {
      NothingBeforeZero(content);
      PlainStart(content, spec, limit);
    }
    while offset < |content|
      invariant 0 <= offset <= |content|
      invariant offset == |content| || LineStart(content, offset)
      invariant Ahead(results, Entries(content[offset..]), spec, limit, goal)
      invariant Increasing(Entries(content[offset..]))
      invariant CacheSound(cache.State(), files)
      invariant active.None? ==> cache.State() == old(cache.State())
      invariant active.Some? ==>
                  Pending(Refreshed(cache.State(), active), Entries(content), Entries(content[offset..]))
    {
      LineStep(content, offset);
      ghost var before := Entries(content[offset..]);
      var lineOffset := offset;
      var n := LineLength(content[offset..]);
      var raw := content[offset..offset + n];
      offset := offset + n;
      ghost var rest := Entries(content[offset..]);
      var entry := ParseEntry(raw);
      EntryOfParsed(raw);
      if entry.None? {
        assert before == rest;
        continue;
      }
      var e := entry.value;
      assert before == [e] + rest;
      IncreasingTail(e, rest);
      if active.Some? {
        NoteStep(cache.State(), files, active.value, e, lineOffset, Entries(content), rest);
        cache.Update(e.seqNo, lineOffset, active);
      }
      AheadStep(results, e, rest, spec, limit, goal);
      if spec.afterSeq.Some? && e.seqNo < spec.afterSeq.value {
        NotInRange(e, spec);
        continue;
      }
      if spec.beforeSeq.Some? && e.seqNo > spec.beforeSeq.value {
        AheadPast(results, e, rest, spec, limit, goal);
        return;
      }
      WantedMatches(e, spec);
      if !Matches(e, spec) {
        continue;
      }
      results := results + [e];
      if limit.Some? && |results| >= limit.value {
        return;
      }
    }
    assert content[offset..] == [];
    NoLines();
    AheadStops(results, [], spec, limit, goal);
    if active.Some? {
      MarkSound(cache.State(), files, active.value, current, |content|);
      cache.MarkComplete(active, current, |content|);
    }
  }

  lemma PlainStart(content: seq<byte>, spec: QuerySpec, limit: Option<nat>)
    requires limit.Some? ==> limit.value > 0
    ensures content[0..] == content
    ensures Ahead([], Entries(content), spec, limit, Take(limit, Select(Entries(content), spec)))
  {
    assert [] + Select(Entries(content), spec) == Select(Entries(content), spec);
  }

  lemma IncreasingTail(e: LogEntry, rest: seq<LogEntry>)
    requires Increasing([e] + rest)
    ensures Increasing(rest)
    ensures forall x :: x in rest ==> x.seqNo > e.seqNo
  {
    var all := [e] + rest;
    forall i, j | 0 <= i < j < |rest|
      ensures rest[i].seqNo < rest[j].seqNo
    {
      assert all[i + 1] == rest[i] && all[j + 1] == rest[j];
    }
    forall x | x in rest
      ensures x.seqNo > e.seqNo
    {
      var i :| 0 <= i < |rest| && rest[i] == x;
      assert all[0] == e && all[i + 1] == x;
    }
  }

  lemma NotInRange(e: LogEntry, spec: QuerySpec)
    requires !InRange(e, spec)
    ensures !Wanted(e, spec)
  {
  }

  lemma WantedMatches(e: LogEntry, spec: QuerySpec)
    requires InRange(e, spec)
    ensures Wanted(e, spec) <==> Matches(e, spec)
  {
  }

  /** Past the upper bound nothing later can be wanted. */
  lemma AheadPast(results: seq<LogEntry>, e: LogEntry, rest: seq<LogEntry>, spec: QuerySpec, limit: Option<nat>,
                  goal: seq<LogEntry>)
    requires Ahead(results, [e] + rest, spec, limit, goal) && Increasing([e] + rest)
    requires spec.beforeSeq.Some? && e.seqNo > spec.beforeSeq.value
    ensures results == goal
  {
    IncreasingTail(e, rest);
    AheadStops(results, [e] + rest, spec, limit, goal);
  }

  lemma MarkSound(c: Cache, files: Files, id: Identity, current: Option<Identity>, size: nat)
    requires FilesOk(files) && CacheSound(c, files) && id in files
    requires Pending(Refreshed(c, Some(id)), Entries(files[id]), [])
    ensures CacheSound(Marked(c, Some(id), current, size), files)
  {
    hide Entries;
    RefreshSound(c, files, id);
  }

  // -------------------------------------------------------- descending reader

  predicate Decreasing(es: seq<LogEntry>) {
    forall i, j :: 0 <= i < j < |es| ==> es[i].seqNo > es[j].seqNo
  }

  lemma ReversedDecreases(es: seq<LogEntry>)
    requires Increasing(es)
    ensures Decreasing(Reversed(es))
  {
    ReversedMembers(es);
  }

  lemma DecreasingTail(e: LogEntry, rest: seq<LogEntry>)
    requires Decreasing([e] + rest)
    ensures Decreasing(rest)
    ensures forall x :: x in rest ==> x.seqNo < e.seqNo
  {
    var all := [e] + rest;
    forall i, j | 0 <= i < j < |rest|
      ensures rest[i].seqNo > rest[j].seqNo
    {
      assert all[i + 1] == rest[i] && all[j + 1] == rest[j];
    }
    forall x | x in rest
      ensures x.seqNo < e.seqNo
    {
      var i :| 0 <= i < |rest| && rest[i] == x;
      assert all[0] == e && all[i + 1] == x;
    }
  }

  lemma RawStep(lines: seq<ReverseLine>, i: nat)
    requires i < |lines|
    ensures EntriesOn(RawLines(lines)[i..]) == EntryOf(lines[i].raw) + EntriesOn(RawLines(lines)[i + 1..])
  {
    hide EntryOf;
    var raws := RawLines(lines);
    assert raws[i..][0] == lines[i].raw;
    assert raws[i..][1..] == raws[i + 1..];
  }

  /** Below the lower bound nothing earlier can be wanted. */
  lemma AheadBelow(results: seq<LogEntry>, e: LogEntry, rest: seq<LogEntry>, spec: QuerySpec, limit: Option<nat>,
                   goal: seq<LogEntry>)
    requires Ahead(results, [e] + rest, spec, limit, goal) && Decreasing([e] + rest)
    requires spec.afterSeq.Some? && e.seqNo < spec.afterSeq.value
    ensures results == goal
  {
    DecreasingTail(e, rest);
    AheadStops(results, [e] + rest, spec, limit, goal);
  }

  method QueryDescFile(content: seq<byte>, chunkSize: nat, spec: QuerySpec, limit: Option<nat>)
    returns (results: seq<LogEntry>)
    requires chunkSize >= 1 && (limit.Some? ==> limit.value > 0)
    requires Increasing(Entries(content))
    ensures results == Take(limit, Select(Reversed(Entries(content)), spec))
  {
    hide Entries;
    hide EntryOf;
    hide Wanted;
    hide Ahead;
    var lines := IterLinesReverse(content, chunkSize);
    ReverseReaderAgrees(content);
    ReversedDecreases(Entries(content));
    ghost var goal := Take(limit, Select(Reversed(Entries(content)), spec));
    results := [];
    var i := 0;
    assert RawLines(lines)[0..] == RawLines(lines);
    FromNothing(Reversed(Entries(content)), spec, limit);
    while i < |lines|
      invariant 0 <= i <= |lines|
      invariant Ahead(results, EntriesOn(RawLines(lines)[i..]), spec, limit, goal)
      invariant Decreasing(EntriesOn(RawLines(lines)[i..]))
    {
      RawStep(lines, i);
      ghost var before := EntriesOn(RawLines(lines)[i..]);
      ghost var rest := EntriesOn(RawLines(lines)[i + 1..]);
      var entry := ParseEntry(lines[i].raw);
      EntryOfParsed(lines[i].raw);
      i := i + 1;
      if entry.None? {
        assert before == rest;
        continue;
      }
      var e := entry.value;
      assert before == [e] + rest;
      DecreasingTail(e, rest);
      AheadStep(results, e, rest, spec, limit, goal);
      if spec.beforeSeq.Some? && e.seqNo > spec.beforeSeq.value {
        NotInRange(e, spec);
        continue;
      }
      if spec.afterSeq.Some? && e.seqNo < spec.afterSeq.value {
        AheadBelow(results, e, rest, spec, limit, goal);
        return;
      }
      WantedMatches(e, spec);
      if !Matches(e, spec) {
        continue;
      }
      results := results + [e];
      if limit.Some? && |results| >= limit.value {
        return;
      }
    }
    assert RawLines(lines)[i..] == [];
    AheadStops(results, [], spec, limit, goal);
  }

  lemma FromNothing(es: seq<LogEntry>, spec: QuerySpec, limit: Option<nat>)
    requires limit.Some? ==> limit.value > 0
    ensures Ahead([], es, spec, limit, Take(limit, Select(es, spec)))
  {
    assert [] + Select(es, spec) == Select(es, spec);
  }

  lemma EntryOfParsed(raw: seq<byte>)
    ensures EntryOf(raw) == if ParseEntry(raw).Some? then [ParseEntry(raw).value] else []
  {
  }
}
