/** What every run of the log keeps, whatever crashes interrupt it. */
module StorageRuns {
  import opened Json
  import opened Records
  import opened Lines
  import opened TailRecovery
  import opened Completions
  import opened Storage

  /** Sequence numbers rise by one from `from`. */
  predicate Numbered(es: seq<LogEntry>, from: int) {
    forall i :: 0 <= i < |es| ==> es[i].seqNo == from + i
  }

  /** Sequence numbers rise strictly, none below `from`. */
  predicate Rising(es: seq<LogEntry>, from: int) {
    Increasing(es) && (es != [] ==> from <= es[0].seqNo)
  }

  /** A closed segment holds whole records and is named for its first and last of them. */
  predicate SegmentSound(x: Segment, from: int) {
    var es := Entries(x.content);
    && es != []
    && x.content == EncodeAll(es)
    && Rising(es, from)
    && x.name.first == FirstSeq(es)
    && x.name.last == LastSeq(es)
  }

  /** Segments in name order follow each other without overlap. */
  predicate Stacked(segments: seq<Segment>, from: int) {
    segments == []
    || (SegmentSound(segments[0], from) && Stacked(segments[1..], segments[0].name.last + 1))
  }

  /** The lowest sequence that may follow the segments. */
  function NextSeq(segments: seq<Segment>, from: int): int {
    if segments == [] then from else NextSeq(segments[1..], segments[0].name.last + 1)
  }

  /** Settling the tail leaves exactly the records a reader already sees. */
  predicate Settles(s: seq<byte>) {
    Recovered(s) == EncodeAll(Entries(s))
  }

  /** The manifest lists only files that exist, and exists only beside a segment. */
  predicate ManifestSound(d: Disk) {
    match d.manifest
    case None => true
    case Some(m) =>
      && d.segments != []
      && (forall n :: n in m.rows ==> n in Names(d.segments))
      && 0 <= m.generation
  }

  predicate StartsAtOne(es: seq<LogEntry>) {
    es != [] ==> es[0].seqNo == 1
  }

  /** Holds at every durable write of every operation. */
  predicate Sound(d: Disk) {
    && Stacked(d.segments, 1)
    && (d.active.Some? ==> Settles(d.active.value))
    && Rising(ActiveEntries(d), NextSeq(d.segments, 1))
    && ManifestSound(d)
    && StartsAtOne(AllEntries(d))
  }

  /** Holds between operations: nothing left to repair. */
  predicate Settled(d: Disk) {
    && Sound(d)
    && d.active.Some?
    && d.active.value == EncodeAll(ActiveEntries(d))
    && (forall x :: x in d.segments ==> x.sidecar)
    && match d.manifest
       case None => d.segments == []
       case Some(m) => m.rows == Names(d.segments) && LastSeq(AllEntries(d)) <= m.latestSeq
  }

  /** The highest sequence the log or its manifest knows of; the next append continues it. */
  function Mark(d: Disk): int {
    Max(ManifestLatest(d), LastSeq(AllEntries(d)))
  }

  // -------------------------------------------------------- stacking lemmas

  lemma RisingConcat(a: seq<LogEntry>, b: seq<LogEntry>, from: int, mid: int)
    requires Rising(a, from) && Rising(b, mid) && from <= mid && LastSeq(a) < mid
    ensures Rising(a + b, from)
    ensures FirstSeq(a + b) == if a == [] then FirstSeq(b) else FirstSeq(a)
    ensures LastSeq(a + b) == if b == [] then LastSeq(a) else LastSeq(b)
  {
    var all := a + b;
    forall i, j | 0 <= i < j < |all|
      ensures all[i].seqNo < all[j].seqNo
    {
      if i < |a| <= j {
        assert a[i].seqNo <= LastSeq(a) && b[0].seqNo <= b[j - |a|].seqNo;
      }
    }
  }

  lemma NothingRises(from: int)
    ensures Rising([], from)
  {
  }

  lemma RisingEnds(es: seq<LogEntry>, from: int)
    requires Rising(es, from) && es != []
    ensures from <= FirstSeq(es) <= LastSeq(es)
    ensures forall e :: e in es ==> FirstSeq(es) <= e.seqNo <= LastSeq(es)
  {
    forall e | e in es
      ensures FirstSeq(es) <= e.seqNo <= LastSeq(es)
    {
      var i :| 0 <= i < |es| && es[i] == e;
    }
  }

  lemma {:induction false} StackedCovers(segments: seq<Segment>, from: int)
    requires Stacked(segments, from) && from > 0
    ensures Rising(Covered(segments), from)
    ensures (segments == []) == (Covered(segments) == [])
    ensures from <= NextSeq(segments, from)
    ensures LastSeq(Covered(segments)) == if segments == [] then 0 else NextSeq(segments, from) - 1
    ensures segments != [] ==> FirstSeq(Covered(segments)) == segments[0].name.first
    ensures forall x :: x in segments ==> from <= x.name.first <= x.name.last < NextSeq(segments, from)
    decreases |segments|
  {
    hide Entries;
    if segments != [] {
      hide Increasing;
      var es, next := Entries(segments[0].content), segments[0].name.last + 1;
      RisingEnds(es, from);
      StackedCovers(segments[1..], next);
      RisingConcat(es, Covered(segments[1..]), from, next);
    }
  }

  /** The whole log rises strictly in reading order. */
  lemma SoundIsRising(d: Disk)
    requires Sound(d)
    ensures Rising(AllEntries(d), 1)
    ensures LastSeq(AllEntries(d)) == if ActiveEntries(d) == [] then NextSeq(d.segments, 1) - 1
            else LastSeq(ActiveEntries(d))
    ensures NextSeq(d.segments, 1) - 1 == LastSeq(Covered(d.segments)) <= LastSeq(AllEntries(d))
    ensures 0 <= LastSeq(AllEntries(d)) <= Mark(d)
    ensures AllEntries(d) == [] ==> d.segments == [] && d.manifest.None? && Mark(d) == 0
  {
    hide Entries;
    hide Recovered;
    hide Increasing;
    StackedCovers(d.segments, 1);
    RisingConcat(Covered(d.segments), ActiveEntries(d), 1, NextSeq(d.segments, 1));
    if ActiveEntries(d) != [] {
      RisingEnds(ActiveEntries(d), NextSeq(d.segments, 1));
    }
  }

  lemma {:induction false} StackedAppend(segments: seq<Segment>, x: Segment, from: int)
    requires Stacked(segments, from) && SegmentSound(x, NextSeq(segments, from))
    ensures Stacked(segments + [x], from)
    ensures NextSeq(segments + [x], from) == x.name.last + 1
    ensures Covered(segments + [x]) == Covered(segments) + Entries(x.content)
    decreases |segments|
  {
    hide SegmentSound;
    hide Entries;
    hide Increasing;
    if segments == [] {
      assert segments + [x] == [x];
      assert [x][1..] == [];
    } else {
      assert (segments + [x])[1..] == segments[1..] + [x];
      StackedAppend(segments[1..], x, segments[0].name.last + 1);
    }
  }

  lemma {:induction false} InsertLast(segments: seq<Segment>, x: Segment)
    requires forall y :: y in segments ==> y.name.last < x.name.first && y.name.first <= y.name.last
    ensures Insert(segments, x) == segments + [x]
    decreases |segments|
  {
    if segments != [] {
      InsertLast(segments[1..], x);
    }
  }

  /** Sidecars say nothing about contents. */
  lemma {:induction false} SidecarsKeepStack(a: seq<Segment>, b: seq<Segment>, from: int)
    requires |a| == |b|
    requires forall i :: 0 <= i < |a| ==> a[i].name == b[i].name && a[i].content == b[i].content
    ensures Stacked(a, from) == Stacked(b, from)
    ensures NextSeq(a, from) == NextSeq(b, from)
    ensures Covered(a) == Covered(b)
    decreases |a|
  {
    hide Entries;
    hide Increasing;
    if a != [] {
      SidecarsKeepStack(a[1..], b[1..], a[0].name.last + 1);
    }
  }

  lemma {:induction false} ListedAll(segments: seq<Segment>, from: int)
    requires Stacked(segments, from) && from > 0
    ensures ListedRows(segments) == Names(segments)
    decreases |segments|
  {
    hide Entries;
    hide Increasing;
    if segments != [] {
      RisingEnds(Entries(segments[0].content), from);
      ListedAll(segments[1..], segments[0].name.last + 1);
      assert Names(segments) == [segments[0].name] + Names(segments[1..]);
    }
  }

  lemma {:induction false} RowBounds(segments: seq<Segment>, from: int)
    requires Stacked(segments, from) && from > 0
    ensures LatestRow(Names(segments)) == if segments == [] then 0 else NextSeq(segments, from) - 1
    ensures EarliestRow(Names(segments)) == if segments == [] then 0 else segments[0].name.first
    decreases |segments|
  {
    hide Entries;
    hide Increasing;
    if segments != [] {
      var next := segments[0].name.last + 1;
      StackedCovers(segments, from);
      StackedCovers(segments[1..], next);
      RowBounds(segments[1..], next);
      assert Names(segments)[1..] == Names(segments[1..]);
      assert segments[1..] != [] ==> segments[1] in segments[1..];
    }
  }

  lemma NextGenerationAtLeast(rows: seq<SegmentName>, base: int)
    ensures NextGeneration(rows, base) >= base
  {
  }

  // ------------------------------------------------------------------ repair

  lemma EncodedFileSettles(es: seq<LogEntry>)
    ensures Terminated(EncodeAll(es)) && Recovered(EncodeAll(es)) == EncodeAll(es)
    ensures Entries(EncodeAll(es)) == es
    ensures Settles(EncodeAll(es))
  {
    hide Entries;
    EntriesOfEncodeAll(es);
  }

  lemma RecoverKeeps(d: Disk)
    requires Sound(d)
    ensures Sound(Recover(d))
    ensures ActiveEntries(Recover(d)) == ActiveEntries(d) && AllEntries(Recover(d)) == AllEntries(d)
    ensures Mark(Recover(d)) == Mark(d)
    ensures d.active.Some? ==> Recover(d).active == Some(EncodeAll(ActiveEntries(d)))
  {
    hide Entries;
    hide Recovered;
    hide Increasing;
    EncodedFileSettles(ActiveEntries(d));
  }

  lemma FirstNonZero(es: seq<LogEntry>)
    requires Rising(es, 1)
    ensures FirstNonZeroSeq(es) == FirstSeq(es)
  {
  }

  lemma {:induction false} StackedMember(segments: seq<Segment>, from: int, x: Segment)
    requires Stacked(segments, from) && from > 0 && x in segments
    ensures !BoundsDisagree(x)
    decreases |segments|
  {
    hide Entries;
    hide Increasing;
    if x != segments[0] {
      RisingEnds(Entries(segments[0].content), from);
      StackedMember(segments[1..], segments[0].name.last + 1, x);
    } else {
      FirstNonZero(Entries(x.content));
    }
  }

  /** Repair never has to give up on a log its own writer left behind. */
  lemma RepairNeverRefuses(d: Disk)
    requires Sound(d)
    ensures !RepairRefuses(d)
  {
    hide Entries;
    hide Recovered;
    hide BoundsDisagree;
    forall x | x in d.segments
      ensures !BoundsDisagree(x)
    {
      StackedMember(d.segments, 1, x);
    }
  }

  lemma WithSidecarsKeeps(d: Disk, n: nat)
    requires Sound(d)
    ensures Sound(WithSidecars(d, n))
    ensures AllEntries(WithSidecars(d, n)) == AllEntries(d)
    ensures Mark(WithSidecars(d, n)) == Mark(d)
    ensures Names(WithSidecars(d, n).segments) == Names(d.segments)
  {
    hide Entries;
    hide Recovered;
    hide Increasing;
    SidecarsKeepStack(d.segments, WithSidecars(d, n).segments, 1);
    assert Names(WithSidecars(d, n).segments) == Names(d.segments);
  }

  lemma BoundsOfActive(d: Disk)
    requires Sound(d)
    ensures ActiveEntries(d) != [] ==> 0 < FirstSeq(ActiveEntries(d)) <= LastSeq(ActiveEntries(d))
    ensures ActiveLast(d) == LastSeq(ActiveEntries(d))
    ensures LatestRow(Names(d.segments)) == LastSeq(Covered(d.segments))
    ensures Max(LatestRow(Names(d.segments)), ActiveLast(d)) == LastSeq(AllEntries(d))
    ensures d.segments != [] ==> EarliestRow(Names(d.segments)) == 1
  {
    hide Entries;
    hide Recovered;
    hide Increasing;
    SoundIsRising(d);
    StackedCovers(d.segments, 1);
    RowBounds(d.segments, 1);
    if ActiveEntries(d) != [] {
      RisingEnds(ActiveEntries(d), NextSeq(d.segments, 1));
    }
  }

  lemma RepairedManifestIsExact(d: Disk)
    requires Sound(d)
    ensures match RepairedManifest(d)
            case None => d.segments == [] && d.manifest.None?
            case Some(m) =>
              && d.segments != []
              && m.rows == Names(d.segments)
              && m.latestSeq == Mark(d)
              && m.minSeq == 1
              && m.generation >= 0
  {
    hide Entries;
    hide Recovered;
    hide Increasing;
    ListedAll(d.segments, 1);
    BoundsOfActive(d);
    SoundIsRising(d);
    NextGenerationAtLeast(Names(d.segments), BaseManifest(d).generation);
  }

  /** Repair keeps every entry, and leaves a manifest whose rows are the files and whose
      mark is the highest sequence either of them knew. */
  lemma RepairRestores(d: Disk)
    requires Sound(d) && d.active.Some?
    ensures Settled(Repaired(d))
    ensures AllEntries(Repaired(d)) == AllEntries(d)
    ensures ActiveEntries(Repaired(d)) == ActiveEntries(d)
    ensures Mark(Repaired(d)) == Mark(d)
    ensures Repaired(d).manifest.Some? ==> Repaired(d).manifest.value.latestSeq == Mark(d)
  {
    hide Entries;
    hide Recovered;
    hide RepairedManifest;
    hide Increasing;
    var r := Recover(d);
    RecoverKeeps(d);
    WithSidecarsKeeps(r, |r.segments|);
    RepairedManifestIsExact(r);
    SoundIsRising(r);
    var w := WithSidecars(r, |r.segments|);
    assert AllEntries(Repaired(d)) == AllEntries(w);
    EncodedFileSettles(ActiveEntries(d));
    RepairedMark(d);
  }

  lemma RepairedMark(d: Disk)
    requires Sound(d) && AllEntries(Repaired(d)) == AllEntries(d)
    ensures Mark(Repaired(d)) == Mark(d)
  {
    hide Entries;
    hide AllEntries;
    hide Recovered;
    hide RepairedManifest;
    RecoverKeeps(d);
    RepairedManifestIsExact(Recover(d));
    SoundIsRising(d);
  }

  // ---------------------------------------------------------------- rotation

  lemma RenameStacks(d: Disk, limit: nat, sidecar: bool)
    requires Settled(d) && MustRotate(d, limit)
    ensures var x := Segment(RotationTarget(d), d.active.value, sidecar);
            Insert(d.segments, x) == d.segments + [x]
    ensures Stacked(Renamed(d, sidecar).segments, 1)
    ensures NextSeq(Renamed(d, sidecar).segments, 1) == LastSeq(AllEntries(d)) + 1
    ensures Covered(Renamed(d, sidecar).segments) == AllEntries(d)
  {
    hide Entries;
    hide Recovered;
    hide EncodeAll;
    hide Increasing;
    var x := Segment(RotationTarget(d), d.active.value, sidecar);
    SoundIsRising(d);
    StackedCovers(d.segments, 1);
    InsertLast(d.segments, x);
    StackedAppend(d.segments, x, 1);
  }

  /** What every stop inside a rotation leaves on disk. */
  lemma RotationShape(d: Disk, limit: nat, cut: Cut)
    requires Settled(d) && MustRotate(d, limit)
    ensures var r := RotateCut(d, cut); var x := Segment(RotationTarget(d), d.active.value, !cut.AtRename?);
            && r.segments == d.segments + [x]
            && Names(r.segments) == Names(d.segments) + [x.name]
            && Stacked(r.segments, 1)
            && r.active in {None, Some([])}
            && ActiveEntries(r) == []
            && AllEntries(r) == AllEntries(d)
            && (r.manifest == d.manifest || r.manifest == Some(RotationManifest(d)))
            && (!InRotation(cut) ==> r.active == Some([]) && !cut.AtRename? && r.manifest == Some(RotationManifest(d)))
  {
    hide Entries;
    hide Settled;
    hide RotationManifest;
    hide Stacked;
    hide Insert;
    var sidecar := !cut.AtRename?;
    RenameStacks(d, limit, sidecar);
    EncodedFileSettles([]);
    var r := RotateCut(d, cut);
    assert Renamed(d, sidecar).segments == r.segments;
    assert ActiveEntries(r) == [];
    assert AllEntries(r) == Covered(r.segments) + [];
  }

  /** Every stop inside a rotation leaves the log readable and complete. */
  lemma RotationKeeps(d: Disk, limit: nat, cut: Cut)
    requires Settled(d) && MustRotate(d, limit)
    ensures Sound(RotateCut(d, cut))
    ensures AllEntries(RotateCut(d, cut)) == AllEntries(d)
    ensures Mark(RotateCut(d, cut)) == Mark(d)
    ensures !InRotation(cut) ==> Settled(RotateCut(d, cut))
  {
    hide Entries;
    hide Recovered;
    hide Increasing;
    hide RotateCut;
    hide MustRotate;
    hide RotationManifest;
    hide Stacked;
    hide Names;
    RotationShape(d, limit, cut);
    var r := RotateCut(d, cut);
    EncodedFileSettles([]);
    NothingRises(NextSeq(r.segments, 1));
    RotationManifestSound(d, limit, r);
    SoundIsRising(d);
  }

  lemma RotationManifestSound(d: Disk, limit: nat, r: Disk)
    requires Settled(d) && MustRotate(d, limit)
    requires Names(r.segments) == Names(d.segments) + [RotationTarget(d)] && r.segments != []
    requires AllEntries(r) == AllEntries(d)
    requires r.manifest == d.manifest || r.manifest == Some(RotationManifest(d))
    ensures ManifestSound(r)
    ensures RotationManifest(d).rows == Names(r.segments)
    ensures RotationManifest(d).latestSeq == Mark(d)
    ensures Mark(r) == Mark(d)
  {
    hide Entries;
    hide Recovered;
    hide AllEntries;
    hide Increasing;
    BoundsOfActive(d);
    SoundIsRising(d);
  }

  lemma PreparedKeeps(d: Disk, limit: nat)
    requires Sound(d) && ReachesWrite(d, limit)
    ensures Settled(Prepared(d, limit))
    ensures AllEntries(Prepared(d, limit)) == AllEntries(d)
    ensures Mark(Prepared(d, limit)) == Mark(d)
  {
    hide Entries;
    hide Repaired;
    hide Rotated;
    hide Mark;
    RepairRestores(d);
    if MustRotate(Repaired(d), limit) {
      RotationKeeps(Repaired(d), limit, AtRotation);
      RotationKeeps(Repaired(d), limit, Uncut);
    }
  }

  // ------------------------------------------------------------------ append

  /** The next append continues from the log's mark. */
  lemma NextSequenceIsMark(d: Disk)
    requires Settled(d)
    ensures LatestSeqForAppend(d) == Mark(d)
  {
    hide Entries;
    hide Recovered;
    hide Increasing;
    SoundIsRising(d);
  }

  /** The entries of an interrupted write that are durable. */
  function Kept(es: seq<LogEntry>, cut: Cut): seq<LogEntry> {
    match cut
    case AtBytes(k) => if k <= |EncodeAll(es)| then es[..Survivors(es, k)] else es
    case _ => es
  }

  lemma {:induction false} AllSurvive(es: seq<LogEntry>)
    ensures Survivors(es, |EncodeAll(es)|) == |es|
    decreases |es|
  {
    hide EncodeEntry;
    if es != [] {
      AllSurvive(es[1..]);
    }
  }

  /** Writing any prefix of the bytes onto an encoded file settles to a record prefix. */
  lemma PartialWriteSettles(before: seq<LogEntry>, es: seq<LogEntry>, k: nat)
    requires k <= |EncodeAll(es)|
    requires forall e :: e in es ==> Writable(e)
    ensures var s := EncodeAll(before) + EncodeAll(es)[..k];
            && Entries(s) == before + es[..Survivors(es, k)]
            && Settles(s)
  {
    hide Entries;
    hide Recovered;
    EncodedFileSettles(before);
    CrashedAppendRecovers(EncodeAll(before), es, k);
    CrashedAppendReads(EncodeAll(before), es, k);
    EncodeAllConcat(before, es[..Survivors(es, k)]);
  }

  lemma NumberedIsRising(es: seq<LogEntry>, n: nat, from: int)
    requires Numbered(es, from) && n <= |es|
    ensures Rising(es[..n], from)
    ensures LastSeq(es[..n]) == if n == 0 then 0 else from + n - 1
  {
  }

  lemma WriteReads(d: Disk, es: seq<LogEntry>, k: nat)
    requires Settled(d)
    requires Numbered(es, Mark(d) + 1) && forall e :: e in es ==> FieldsUnique(e.event)
    requires k <= |EncodeAll(es)|
    ensures var w := Written(d, EncodeAll(es)[..k]);
            && Settles(w.active.value)
            && ActiveEntries(w) == ActiveEntries(d) + es[..Survivors(es, k)]
            && AllEntries(w) == AllEntries(d) + es[..Survivors(es, k)]
            && Sound(w)
            && Mark(w) == Mark(d) + Survivors(es, k)
  {
    hide Entries;
    hide Recovered;
    hide EncodeAll;
    hide Survivors;
    hide Increasing;
    SoundIsRising(d);
    PartialWriteSettles(ActiveEntries(d), es, k);
    var n := Survivors(es, k);
    NumberedIsRising(es, n, Mark(d) + 1);
    if ActiveEntries(d) != [] {
      RisingEnds(ActiveEntries(d), NextSeq(d.segments, 1));
    }
    RisingConcat(ActiveEntries(d), es[..n], NextSeq(d.segments, 1), Mark(d) + 1);
    var w := Written(d, EncodeAll(es)[..k]);
    assert AllEntries(w) == AllEntries(d) + es[..n];
  }

  /** Whatever prefix of an append reaches the disk, the log keeps rising and grows by
      whole records only. */
  lemma WriteKeeps(d: Disk, es: seq<LogEntry>, cut: Cut)
    requires Settled(d)
    requires Numbered(es, Mark(d) + 1) && forall e :: e in es ==> FieldsUnique(e.event)
    ensures Sound(WriteCut(d, es, cut))
    ensures AllEntries(WriteCut(d, es, cut)) == AllEntries(d) + Kept(es, cut)
    ensures Mark(WriteCut(d, es, cut)) == Mark(d) + |Kept(es, cut)|
    ensures !cut.AtBytes? && !cut.AtWritten? ==> Settled(WriteCut(d, es, cut))
  {
    hide Entries;
    hide Recovered;
    hide EncodeAll;
    hide Increasing;
    var bytes := EncodeAll(es);
    NextSequenceIsMark(d);
    if cut.AtBytes? && cut.count <= |bytes| {
      WriteReads(d, es, cut.count);
    } else {
      WriteReads(d, es, |bytes|);
      assert bytes[..|bytes|] == bytes;
      AllSurvive(es);
      assert es[..|es|] == es;
      EncodeAllConcat(ActiveEntries(d), es);
      WholeWriteKeeps(d, es, cut);
    }
  }

  lemma WholeWriteKeeps(d: Disk, es: seq<LogEntry>, cut: Cut)
    requires Settled(d) && LatestSeqForAppend(d) == Mark(d)
    requires var w := Written(d, EncodeAll(es));
             && Sound(w) && AllEntries(w) == AllEntries(d) + es && ActiveEntries(w) == ActiveEntries(d) + es
             && Mark(w) == Mark(d) + |es|
             && w.active.value == EncodeAll(ActiveEntries(w))
    requires cut.AtBytes? ==> cut.count > |EncodeAll(es)|
    ensures Sound(WriteCut(d, es, cut))
    ensures AllEntries(WriteCut(d, es, cut)) == AllEntries(d) + Kept(es, cut)
    ensures Mark(WriteCut(d, es, cut)) == Mark(d) + |Kept(es, cut)|
    ensures !cut.AtBytes? && !cut.AtWritten? ==> Settled(WriteCut(d, es, cut))
  {
    hide Entries;
    hide Recovered;
    hide EncodeAll;
    hide Increasing;
    var w := Written(d, EncodeAll(es));
    if !cut.AtBytes? && !cut.AtWritten? {
      NotedKeeps(w, Mark(d) + |es|);
    }
  }

  /** Raising the manifest's mark touches nothing else. */
  lemma NotedKeeps(d: Disk, latest: int)
    requires Sound(d)
    ensures Sound(Noted(d, latest))
    ensures AllEntries(Noted(d, latest)) == AllEntries(d) && ActiveEntries(Noted(d, latest)) == ActiveEntries(d)
    ensures Mark(Noted(d, latest)) == if d.manifest.Some? then Max(Mark(d), latest) else Mark(d)
    ensures Settled(d) ==> Settled(Noted(d, latest))
    ensures Noted(d, latest).segments == d.segments && Noted(d, latest).active == d.active
    ensures Noted(d, latest).manifest.Some? == d.manifest.Some?
    ensures d.manifest.Some? ==>
              Noted(d, latest).manifest.value == d.manifest.value.(latestSeq := Max(d.manifest.value.latestSeq, latest))
  {
    hide Entries;
    hide Recovered;
    hide Increasing;
  }

  // -------------------------------------------------------------------- runs

  function AddedBy(d: Disk, limit: nat, events: seq<Object>, timestamp: int, cut: Cut, skip: bool): seq<LogEntry> {
    if !ReachesWrite(d, limit) || InRepair(cut) || skip || InRotation(cut) then []
    else Kept(NewEntries(Prepared(d, limit), events, timestamp), cut)
  }

  /** The entries an operation makes durable. */
  function Added(d: Disk, limit: nat, op: Op): seq<LogEntry> {
    match op
    case Open(_) => []
    case Append(event, timestamp, cut) =>
      if IsCompletion(event) && !WellFormed(event) then []
      else AddedBy(d, limit, [event], timestamp, cut, AlreadyLogged(Repaired(d), event))
    case AppendPair(recap, detach, timestamp, cut) => AddedBy(d, limit, [recap, detach], timestamp, cut, false)
    case PairFails(_, _, _, _) => []
  }

  /** A failed pair that had already raised a manifest: the rollback cannot lower it again. */
  predicate Raises(d: Disk, limit: nat, op: Op) {
    op.PairFails? && op.manifestReplaced && ReachesWrite(d, limit) && Prepared(d, limit).manifest.Some?
  }

  lemma KeptIsPrefix(es: seq<LogEntry>, cut: Cut)
    ensures Kept(es, cut) <= es
  {
  }

  lemma RepairCutKeeps(d: Disk, cut: Cut)
    requires Sound(d) && d.active.Some?
    ensures Sound(RepairCut(d, cut))
    ensures AllEntries(RepairCut(d, cut)) == AllEntries(d)
    ensures Mark(RepairCut(d, cut)) == Mark(d)
    ensures !cut.AtRecovery? && !cut.AtSidecars? ==> Settled(RepairCut(d, cut))
  {
    hide Entries;
    hide Recovered;
    hide Repaired;
    hide Mark;
    RecoverKeeps(d);
    RepairRestores(d);
    match cut
    case AtSidecars(n) => WithSidecarsKeeps(Recover(d), n);
    case _ =>
  }

  lemma AppendEventsKeeps(d: Disk, limit: nat, events: seq<Object>, timestamp: int, cut: Cut, skip: bool)
    requires Sound(d)
    ensures var r := AppendEvents(d, limit, events, timestamp, cut, skip);
            var added := AddedBy(d, limit, events, timestamp, cut, skip);
            && Sound(r)
            && AllEntries(r) == AllEntries(d) + added
            && Numbered(added, Mark(d) + 1)
            && Mark(r) == Mark(d) + |added|
            && (cut.Uncut? && d.active.Some? ==> Settled(r))
  {
    hide Entries;
    hide Sound;
    hide Settled;
    hide AllEntries;
    hide Repaired;
    hide Prepared;
    hide WriteCut;
    hide RotateCut;
    hide Mark;
    hide Kept;
    if d.active.Some? {
      RecoverKeeps(d);
      RepairNeverRefuses(Recover(d));
      RepairRestores(d);
      RepairCutKeeps(d, cut);
      if MustRotate(Repaired(d), limit) {
        RotationKeeps(Repaired(d), limit, cut);
      }
      if ReachesWrite(d, limit) {
        PreparedKeeps(d, limit);
        var p := Prepared(d, limit);
        NextSequenceIsMark(p);
        KeptIsPrefix(NewEntries(p, events, timestamp), cut);
        WriteKeeps(p, NewEntries(p, events, timestamp), cut);
      }
    }
  }

  lemma CreateKeeps(d: Disk)
    requires Sound(d) && d.active.None?
    ensures Sound(d.(active := Some([])))
    ensures AllEntries(d.(active := Some([]))) == AllEntries(d)
    ensures Mark(d.(active := Some([]))) == Mark(d)
  {
    hide Recovered;
    EncodedFileSettles([]);
  }

  /** One operation, stopped anywhere: entries are never lost, altered or reordered, what is
      added is numbered from the mark on, and the mark moves by exactly what was added, plus
      two for a failed pair that had raised the manifest. */
  lemma StepKeeps(d: Disk, limit: nat, op: Op)
    requires Sound(d)
    ensures Sound(Apply(d, limit, op))
    ensures AllEntries(Apply(d, limit, op)) == AllEntries(d) + Added(d, limit, op)
    ensures Numbered(Added(d, limit, op), Mark(d) + 1)
    ensures Mark(Apply(d, limit, op)) == Mark(d) + |Added(d, limit, op)| + (if Raises(d, limit, op) then 2 else 0)
    ensures op == Open(Uncut) ==> Settled(Apply(d, limit, op))
  {
    hide Entries;
    hide Sound;
    hide Settled;
    hide AllEntries;
    hide Repaired;
    hide RepairCut;
    hide AppendEvents;
    hide AddedBy;
    hide Mark;
    hide Prepared;
    hide Noted;
    match op
    case Open(cut) =>
      if d.active.None? { CreateKeeps(d); }
      var created := if d.active.None? then d.(active := Some([])) else d;
      RecoverKeeps(created);
      RepairNeverRefuses(Recover(created));
      RepairCutKeeps(created, cut);
    case Append(event, timestamp, cut) =>
      AppendEventsKeeps(d, limit, [event], timestamp, cut, AlreadyLogged(Repaired(d), event));
    case AppendPair(recap, detach, timestamp, cut) =>
      AppendEventsKeeps(d, limit, [recap, detach], timestamp, cut, false);
    case PairFails(recap, detach, timestamp, replaced) =>
      if ReachesWrite(d, limit) {
        FailedPairKeeps(d, limit, recap, detach, timestamp, replaced);
      } else {
        AppendEventsKeeps(d, limit, [recap, detach], timestamp, Uncut, false);
        NothingAdded(d, limit, [recap, detach], timestamp);
      }
  }

  lemma FailedPairKeeps(d: Disk, limit: nat, recap: Object, detach: Object, timestamp: int, replaced: bool)
    requires Sound(d) && ReachesWrite(d, limit)
    ensures var op := PairFails(recap, detach, timestamp, replaced);
            var r := Apply(d, limit, op);
            && Settled(r) && Sound(r)
            && AllEntries(r) == AllEntries(d)
            && Mark(r) == Mark(d) + (if Raises(d, limit, op) then 2 else 0)
            && r.active == Prepared(d, limit).active
            && r.segments == Prepared(d, limit).segments
            && (r.manifest.Some? <==> Prepared(d, limit).manifest.Some?)
  {
    hide Entries;
    hide AllEntries;
    hide Prepared;
    hide Noted;
    hide Mark;
    hide Sound;
    var p := Prepared(d, limit);
    PreparedKeeps(d, limit);
    assert Sound(p);
    hide Settled;
    NextSequenceIsMark(p);
    NotedKeeps(p, LatestSeqForAppend(p) + 2);
  }

  lemma SettledIsSound(d: Disk)
    requires Settled(d)
    ensures Sound(d)
  {
  }

  lemma NothingAdded(d: Disk, limit: nat, events: seq<Object>, timestamp: int)
    requires !ReachesWrite(d, limit)
    ensures AddedBy(d, limit, events, timestamp, Uncut, false) == []
  {
  }

  /** Everything a run made durable, in order. */
  function History(d: Disk, limit: nat, ops: seq<Op>): seq<LogEntry>
    decreases |ops|
  {
    if ops == [] then []
    else Added(d, limit, ops[0]) + History(Apply(d, limit, ops[0]), limit, ops[1..])
  }

  /** How many failed pairs of the run had raised the manifest. */
  function RaiseCount(d: Disk, limit: nat, ops: seq<Op>): nat
    decreases |ops|
  {
    if ops == [] then 0
    else (if Raises(d, limit, ops[0]) then 1 else 0) + RaiseCount(Apply(d, limit, ops[0]), limit, ops[1..])
  }

  lemma {:induction false} RunKeeps(d: Disk, limit: nat, ops: seq<Op>)
    requires Sound(d)
    ensures Sound(Run(d, limit, ops))
    ensures AllEntries(Run(d, limit, ops)) == AllEntries(d) + History(d, limit, ops)
    ensures Mark(Run(d, limit, ops)) == Mark(d) + |History(d, limit, ops)| + 2 * RaiseCount(d, limit, ops)
    decreases |ops|
  {
    hide Sound;
    hide AllEntries;
    hide Apply;
    hide Added;
    hide Raises;
    hide Mark;
    if ops != [] {
      StepKeeps(d, limit, ops[0]);
      RunKeeps(Apply(d, limit, ops[0]), limit, ops[1..]);
    }
  }

  lemma EmptyDiskIsSound()
    ensures Sound(EMPTY_DISK) && AllEntries(EMPTY_DISK) == [] && Mark(EMPTY_DISK) == 0
  {
  }

  /** Over every run of opens, appends, pairs and failed pairs from an empty directory,
      stopped by any number of crashes: the segments in name order followed by the active
      file hold exactly what was made durable, in order, with rising numbers from 1; repair
      never refuses, reopening keeps them all and settles the log; and the next number is
      the count of entries plus two for every failed pair that had raised the manifest. */
  lemma RunsKeepEverything(limit: nat, ops: seq<Op>)
    ensures var d := Run(EMPTY_DISK, limit, ops);
            && Sound(d)
            && AllEntries(d) == History(EMPTY_DISK, limit, ops)
            && Rising(AllEntries(d), 1) && StartsAtOne(AllEntries(d))
            && Mark(d) == |AllEntries(d)| + 2 * RaiseCount(EMPTY_DISK, limit, ops)
            && !RepairRefuses(Recover(d))
            && Settled(Apply(d, limit, Open(Uncut)))
            && AllEntries(Apply(d, limit, Open(Uncut))) == AllEntries(d)
  {
    hide Entries;
    hide Run;
    hide Apply;
    hide History;
    hide RaiseCount;
    hide Increasing;
    hide RepairRefuses;
    EmptyDiskIsSound();
    RunKeeps(EMPTY_DISK, limit, ops);
    var d := Run(EMPTY_DISK, limit, ops);
    SoundIsRising(d);
    RecoverKeeps(d);
    RepairNeverRefuses(Recover(d));
    StepKeeps(d, limit, Open(Uncut));
  }

  // ------------------------------------------------------- contiguous numbers

  /** Something was written after a failed pair had raised the manifest. */
  predicate WroteAfterRaise(d: Disk, limit: nat, ops: seq<Op>, raised: bool)
    decreases |ops|
  {
    ops != []
    && ((raised && Added(d, limit, ops[0]) != [])
        || WroteAfterRaise(Apply(d, limit, ops[0]), limit, ops[1..], raised || Raises(d, limit, ops[0])))
  }

  lemma NumberedLast(d: Disk)
    requires Sound(d) && Numbered(AllEntries(d), 1)
    ensures LastSeq(AllEntries(d)) == |AllEntries(d)| <= Mark(d)
  {
  }

  lemma NumberedExtends(es: seq<LogEntry>, added: seq<LogEntry>, mark: int)
    requires Numbered(es, 1) && Numbered(added, mark + 1) && |es| <= mark
    ensures Numbered(es + added, 1) <==> added == [] || mark == |es|
  {
    if added != [] {
      assert (es + added)[|es|] == added[0];
    }
  }

  lemma {:induction false} ContiguousIff(d: Disk, limit: nat, ops: seq<Op>)
    requires Sound(d) && Numbered(AllEntries(d), 1)
    ensures Numbered(AllEntries(Run(d, limit, ops)), 1)
            <==> !WroteAfterRaise(d, limit, ops, Mark(d) > |AllEntries(d)|)
    decreases |ops|
  {
    hide Sound;
    hide AllEntries;
    hide Apply;
    hide Added;
    hide Raises;
    hide Mark;
    NumberedLast(d);
    if ops != [] {
      var d' := Apply(d, limit, ops[0]);
      StepKeeps(d, limit, ops[0]);
      NumberedExtends(AllEntries(d), Added(d, limit, ops[0]), Mark(d));
      if Numbered(AllEntries(d'), 1) {
        ContiguousIff(d', limit, ops[1..]);
      } else {
        RunKeeps(d', limit, ops[1..]);
        NotNumberedStays(AllEntries(d'), History(d', limit, ops[1..]));
      }
    }
  }

  lemma NotNumberedStays(es: seq<LogEntry>, more: seq<LogEntry>)
    requires !Numbered(es, 1)
    ensures !Numbered(es + more, 1)
  {
    var i :| 0 <= i < |es| && es[i].seqNo != 1 + i;
    assert (es + more)[i] == es[i];
  }

  /** The log of a run is numbered exactly 1..n if and only if nothing was written after a
      failed pair that had raised the manifest. */
  lemma RunsContiguousIff(limit: nat, ops: seq<Op>)
    ensures Numbered(AllEntries(Run(EMPTY_DISK, limit, ops)), 1) <==> !WroteAfterRaise(EMPTY_DISK, limit, ops, false)
  {
    hide Run;
    hide WroteAfterRaise;
    EmptyDiskIsSound();
    ContiguousIff(EMPTY_DISK, limit, ops);
  }

  /** A completed append adds exactly its entry, with the number after the mark. */
  lemma CompletedAppendAdds(d: Disk, limit: nat, event: Object, timestamp: int)
    requires Sound(d) && ReachesWrite(d, limit) && !IsCompletion(event)
    ensures Added(d, limit, Append(event, timestamp, Uncut)) == [LogEntry(Mark(d) + 1, timestamp, event)]
  {
    hide Entries;
    hide Settled;
    hide AllEntries;
    hide Prepared;
    hide Mark;
    PreparedKeeps(d, limit);
    NextSequenceIsMark(Prepared(d, limit));
  }

  // ---------------------------------------------------- the rolled-back pair

  /** After a failed pair the active bytes are those from before the write, in every
      case.  The next number is unchanged exactly when the manifest had not been replaced,
      or there was no manifest to replace: neither one on disk, nor a segment to rebuild one
      from, nor a rotation due. */
  lemma FailedPairNumbering(d: Disk, limit: nat, recap: Object, detach: Object, timestamp: int, replaced: bool)
    requires Sound(d) && ReachesWrite(d, limit)
    ensures var r := Apply(d, limit, PairFails(recap, detach, timestamp, replaced));
            && r.active == Prepared(d, limit).active
            && AllEntries(r) == AllEntries(d)
            && (LatestSeqForAppend(r) == Mark(d)
                <==> !replaced || (d.manifest.None? && d.segments == [] && !MustRotate(Repaired(d), limit)))
            && LatestSeqForAppend(r) in {Mark(d), Mark(d) + 2}
  {
    hide Entries;
    hide Prepared;
    hide Apply;
    hide Mark;
    hide Settled;
    hide AllEntries;
    hide LatestSeqForAppend;
    FailedPairKeeps(d, limit, recap, detach, timestamp, replaced);
    NextSequenceIsMark(Apply(d, limit, PairFails(recap, detach, timestamp, replaced)));
    PreparedManifest(d, limit);
  }

  lemma PreparedManifest(d: Disk, limit: nat)
    requires Sound(d) && d.active.Some?
    ensures Prepared(d, limit).manifest.None?
            <==> d.manifest.None? && d.segments == [] && !MustRotate(Repaired(d), limit)
  {
    hide Entries;
    hide Recovered;
    hide Increasing;
    RecoverKeeps(d);
    ListedAll(Recover(d).segments, 1);
  }

  // ------------------------------------------------------------- completions

  predicate CompletionsOnce(es: seq<LogEntry>) {
    && (forall i :: 0 <= i < |es| && IsCompletion(es[i].event) ==> WellFormed(es[i].event))
    && (forall i, j :: 0 <= i < j < |es| && IsCompletion(es[i].event) && IsCompletion(es[j].event)
          ==> EventId(es[i].event) != EventId(es[j].event))
  }

  /** The added completions are well formed, and their ids are new to the log and to each other. */
  predicate FreshFor(es: seq<LogEntry>, added: seq<LogEntry>) {
    && CompletionsOnce(added)
    && (forall i, j :: 0 <= i < |es| && 0 <= j < |added| && IsCompletion(es[i].event) && IsCompletion(added[j].event)
          ==> EventId(es[i].event) != EventId(added[j].event))
  }

  lemma CompletionsConcat(es: seq<LogEntry>, added: seq<LogEntry>)
    ensures CompletionsOnce(es + added) <==> CompletionsOnce(es) && FreshFor(es, added)
  {
    hide IsCompletion;
    hide WellFormed;
    hide EventId;
    var all := es + added;
    if CompletionsOnce(all) {
      forall i, j | 0 <= i < |es| && 0 <= j < |added| && IsCompletion(es[i].event) && IsCompletion(added[j].event)
        ensures EventId(es[i].event) != EventId(added[j].event)
      {
        assert all[i] == es[i] && all[|es| + j] == added[j];
      }
      assert forall i :: 0 <= i < |es| ==> es[i] == all[i];
      assert forall i :: 0 <= i < |added| ==> added[i] == all[|es| + i];
    }
  }

  lemma {:induction false} NoMatches(es: seq<LogEntry>, event: Fields)
    requires MatchesIn(es, event) == []
    ensures forall i :: 0 <= i < |es| ==> !HasId(es[i], EventId(event))
    decreases |es|
  {
    hide HasId;
    if es != [] {
      NoMatches(es[1..], event);
    }
  }

  lemma AddedIsNew(d: Disk, limit: nat, op: Op)
    requires Sound(d) && !op.AppendPair?
    ensures forall e :: e in Added(d, limit, op) && IsCompletion(e.event) ==>
                          WellFormed(e.event) && MatchesIn(AllEntries(d), e.event) == []
    ensures |Added(d, limit, op)| <= 1
  {
    hide Entries;
    hide Sound;
    hide Settled;
    hide AllEntries;
    hide Repaired;
    hide Prepared;
    hide Kept;
    hide IsCompletion;
    hide WellFormed;
    if op.Append? && ReachesWrite(d, limit) {
      RepairRestores(d);
      KeptIsPrefix(NewEntries(Prepared(d, limit), [op.event], op.timestamp), op.cut);
    }
  }

  /** An append looks its completion up first, so what it adds is always fresh. */
  lemma AppendIsFresh(d: Disk, limit: nat, op: Op)
    requires Sound(d) && !op.AppendPair? && CompletionsOnce(AllEntries(d))
    ensures FreshFor(AllEntries(d), Added(d, limit, op))
  {
    hide Sound;
    hide AllEntries;
    hide Added;
    hide MatchesIn;
    AddedIsNew(d, limit, op);
    var es, added := AllEntries(d), Added(d, limit, op);
    assert forall j :: 0 <= j < |added| ==> added[j] in added;
    forall j | 0 <= j < |added| && IsCompletion(added[j].event)
      ensures forall i :: 0 <= i < |es| ==> !HasId(es[i], EventId(added[j].event))
    {
      NoMatches(es, added[j].event);
    }
  }

  /** Every pair of the run wrote only completions whose ids were new to the log and to each
      other; the pair itself never looks them up. */
  predicate PairsAreFresh(d: Disk, limit: nat, ops: seq<Op>)
    decreases |ops|
  {
    ops == []
    || ((ops[0].AppendPair? ==> FreshFor(AllEntries(d), Added(d, limit, ops[0])))
        && PairsAreFresh(Apply(d, limit, ops[0]), limit, ops[1..]))
  }

  /** Over every run the log holds at most one completion per event id if and only if it did
      at the start and no terminal pair wrote a completion whose id was taken. */
  lemma {:induction false} RunsKeepCompletionsIff(d: Disk, limit: nat, ops: seq<Op>)
    requires Sound(d)
    ensures CompletionsOnce(AllEntries(Run(d, limit, ops))) <==>
              CompletionsOnce(AllEntries(d)) && PairsAreFresh(d, limit, ops)
    decreases |ops|
  {
    hide Sound;
    hide AllEntries;
    hide Apply;
    hide Added;
    hide Raises;
    hide Mark;
    hide Numbered;
    hide CompletionsOnce;
    hide FreshFor;
    if ops != [] {
      var d' := Apply(d, limit, ops[0]);
      StepKeeps(d, limit, ops[0]);
      CompletionsConcat(AllEntries(d), Added(d, limit, ops[0]));
      if !ops[0].AppendPair? && CompletionsOnce(AllEntries(d)) {
        AppendIsFresh(d, limit, ops[0]);
      }
      RunsKeepCompletionsIff(d', limit, ops[1..]);
    }
  }

  /** The terminal pair carries a recap and a detach event, as its one caller passes them. */
  predicate PairIsNotCompletion(op: Op) {
    op.AppendPair? ==> !IsCompletion(op.recap) && !IsCompletion(op.detach)
  }

  lemma PairAddsItsEvents(d: Disk, limit: nat, op: Op)
    requires op.AppendPair? && PairIsNotCompletion(op)
    ensures forall e :: e in Added(d, limit, op) ==> !IsCompletion(e.event)
  {
    hide Entries;
    hide Repaired;
    hide Prepared;
    hide ReachesWrite;
    hide Kept;
    hide IsCompletion;
    KeptIsPrefix(NewEntries(Prepared(d, limit), [op.recap, op.detach], op.timestamp), op.cut);
  }

  lemma {:induction false} RecapsAreFresh(d: Disk, limit: nat, ops: seq<Op>)
    requires forall op :: op in ops ==> PairIsNotCompletion(op)
    ensures PairsAreFresh(d, limit, ops)
    decreases |ops|
  {
    hide AllEntries;
    hide Apply;
    hide Added;
    hide IsCompletion;
    if ops != [] {
      assert PairIsNotCompletion(ops[0]);
      RecapsAreFresh(Apply(d, limit, ops[0]), limit, ops[1..]);
      if ops[0].AppendPair? {
        PairAddsItsEvents(d, limit, ops[0]);
        var added := Added(d, limit, ops[0]);
        assert forall j :: 0 <= j < |added| ==> added[j] in added;
      }
    }
  }

  /** From an empty directory, with terminal pairs of recap and detach events, every log holds
      at most one completion per event id. */
  lemma RunsKeepCompletionsOnce(limit: nat, ops: seq<Op>)
    requires forall op :: op in ops ==> PairIsNotCompletion(op)
    ensures CompletionsOnce(AllEntries(Run(EMPTY_DISK, limit, ops)))
  {
    hide Run;
    EmptyDiskIsSound();
    RunsKeepCompletionsIff(EMPTY_DISK, limit, ops);
    RecapsAreFresh(EMPTY_DISK, limit, ops);
  }

  /** Appending a completion that is already logged writes no entry. */
  lemma RepeatedCompletionWritesNothing(d: Disk, limit: nat, event: Object, timestamp: int, cut: Cut, e: LogEntry)
    requires Sound(d) && IsCompletion(event) && WellFormed(event)
    requires e in AllEntries(d) && HasId(e, EventId(event))
    ensures AllEntries(Apply(d, limit, Append(event, timestamp, cut))) == AllEntries(d)
  {
    hide Entries;
    hide Sound;
    hide Settled;
    hide AllEntries;
    hide Repaired;
    hide Apply;
    hide IsCompletion;
    StepKeeps(d, limit, Append(event, timestamp, cut));
    if ReachesWrite(d, limit) {
      RepairRestores(d);
      if MatchesIn(AllEntries(d), event) == [] {
        NoMatches(AllEntries(d), event);
      }
    }
  }
}
