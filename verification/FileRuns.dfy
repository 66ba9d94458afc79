/** Which file every record lies in: an append closes the active file exactly when it has
    outgrown the limit, and over every run no closed segment is small and no file outgrows the
    limit by more than one write. */
module FileRuns {
  import opened Json
  import opened Records
  import opened Lines
  import opened TailRecovery
  import opened Completions
  import opened Storage
  import opened StorageRuns

  /** The bytes of the closed segments, in order. */
  function Contents(segments: seq<Segment>): seq<seq<byte>> {
    seq(|segments|, i requires 0 <= i < |segments| => segments[i].content)
  }

  /** The active file, its tail settled, is larger than the limit. */
  predicate Outgrown(d: Disk, limit: nat) {
    |EncodeAll(ActiveEntries(d))| > limit
  }

  lemma RepairFiles(d: Disk)
    requires Sound(d) && d.active.Some?
    ensures Contents(Repaired(d).segments) == Contents(d.segments) && Names(Repaired(d).segments) == Names(d.segments)
    ensures Repaired(d).active == Some(EncodeAll(ActiveEntries(d)))
  {
    hide Entries;
    hide Recovered;
    hide Sound;
    hide RepairedManifest;
    RecoverKeeps(d);
  }

  /** The manifest a repair leaves says what the files hold: every segment in order, the first
      and the highest sequence, and a generation no segment was named with. */
  lemma RepairedManifestSays(d: Disk)
    requires Sound(d) && d.active.Some? && Repaired(d).manifest.Some?
    ensures var m := Repaired(d).manifest.value;
            && m.rows == Names(d.segments) && m.latestSeq == Mark(d)
            && (d.segments != [] ==> m.minSeq == AllEntries(d)[0].seqNo == 1)
            && forall x :: x in d.segments ==> x.name.generation < m.generation
  {
    hide Entries;
    hide Recovered;
    hide Increasing;
    RepairRestores(d);
    RepairFiles(d);
    RecoverKeeps(d);
    BoundsOfActive(Recover(d));
    ListedAll(Recover(d).segments, 1);
    GenerationIsNew(Names(d.segments), if d.manifest.Some? then d.manifest.value.generation else 0);
    assert forall i :: 0 <= i < |d.segments| ==> d.segments[i].name == Names(d.segments)[i];
    if d.segments != [] {
      assert Covered(d.segments) != [];
    }
  }

  lemma {:induction false} GenerationIsNew(rows: seq<SegmentName>, base: int)
    ensures forall n :: n in rows ==> n.generation < NextGeneration(rows, base)
    decreases |rows|
  {
    if rows != [] {
      GenerationIsNew(rows[1..], base);
      assert rows == [rows[0]] + rows[1..];
    }
  }

  /** On a settled log a rotation is due exactly when the active file has outgrown the limit. */
  lemma MustRotateIff(d: Disk, limit: nat)
    requires Settled(d)
    ensures MustRotate(d, limit) <==> Outgrown(d, limit)
  {
    hide Entries;
    hide Recovered;
    hide Increasing;
    BoundsOfActive(d);
    assert EncodeAll([]) == [];
  }

  lemma SettledRows(d: Disk)
    requires Settled(d) && d.manifest.Some?
    ensures d.manifest.value.rows == Names(d.segments)
  {
  }

  /** The file after a rotation: one more segment, holding exactly the active file's bytes and
      named for its first and last record, and an empty active file. */
  lemma PreparedFiles(d: Disk, limit: nat)
    requires Sound(d) && ReachesWrite(d, limit)
    ensures var p := Prepared(d, limit); var es := ActiveEntries(d);
            if Outgrown(d, limit) then
              && es != []
              && Contents(p.segments) == Contents(d.segments) + [EncodeAll(es)]
              && |p.segments| == |d.segments| + 1 && Names(p.segments)[..|d.segments|] == Names(d.segments)
              && p.segments[|d.segments|].name.first == es[0].seqNo
              && p.segments[|d.segments|].name.last == es[|es| - 1].seqNo
              && p.active == Some([])
              && p.manifest.Some? && p.manifest.value.rows == Names(p.segments)
              && p.manifest.value.generation == p.segments[|d.segments|].name.generation + 1
            else
              Contents(p.segments) == Contents(d.segments) && Names(p.segments) == Names(d.segments)
              && p.active == Some(EncodeAll(es))
  {
    hide Entries;
    hide Recovered;
    hide Sound;
    var r := Repaired(d);
    RepairRestores(d);
    RepairFiles(d);
    MustRotateIff(r, limit);
    hide Repaired;
    hide Settled;
    if MustRotate(r, limit) {
      RotationShape(r, limit, Uncut);
      RotationKeeps(r, limit, Uncut);
      assert RotateCut(r, Uncut).manifest.value.rows == Names(RotateCut(r, Uncut).segments)
        && RotateCut(r, Uncut).manifest.value.generation == RotationTarget(r).generation + 1 by {
        hide RotateCut;
        SettledRows(RotateCut(r, Uncut));
      }
      assert Prepared(d, limit) == RotateCut(r, Uncut);
      assert EncodeAll([]) == [];
      hide RotateCut;
      hide Rotated;
      hide EncodeAll;
      var x := Segment(RotationTarget(r), r.active.value, true);
      assert Contents(r.segments + [x]) == Contents(r.segments) + [x.content];
      assert Names(r.segments) + [x.name] == Names(d.segments) + [x.name];
    }
  }

  /** Where a completed append puts its record: into the active file if that is within the
      limit, leaving every segment alone, and otherwise alone into a new active file, the old
      one closed as a segment with exactly its bytes. */
  lemma AppendFiles(d: Disk, limit: nat, event: Object, timestamp: int)
    requires Sound(d) && ReachesWrite(d, limit) && !IsCompletion(event)
    ensures var r := Apply(d, limit, Append(event, timestamp, Uncut));
            var was := EncodeAll(ActiveEntries(d));
            var record := EncodeEntry(LogEntry(Mark(d) + 1, timestamp, event));
            if |was| <= limit then r.active == Some(was + record) && Contents(r.segments) == Contents(d.segments)
            else r.active == Some(record) && Contents(r.segments) == Contents(d.segments) + [was]
  {
    hide Entries;
    hide Sound;
    hide Settled;
    hide Prepared;
    hide Mark;
    hide EncodeEntry;
    hide Apply;
    PreparedFiles(d, limit);
    PreparedKeeps(d, limit);
    var p := Prepared(d, limit);
    NextSequenceIsMark(p);
    AppendIsWrite(d, limit, event, timestamp);
    var e := LogEntry(Mark(d) + 1, timestamp, event);
    assert NewEntries(p, [event], timestamp) == [e];
    assert EncodeAll([e]) == EncodeEntry(e) + EncodeAll([e][1..]) == EncodeEntry(e);
    hide EncodeAll;
    assert [] + EncodeEntry(e) == EncodeEntry(e);
  }

  lemma AppendIsWrite(d: Disk, limit: nat, event: Object, timestamp: int)
    requires ReachesWrite(d, limit) && !IsCompletion(event)
    ensures var p := Prepared(d, limit);
            p.active.Some?
            && Apply(d, limit, Append(event, timestamp, Uncut)) == WriteCut(p, NewEntries(p, [event], timestamp), Uncut)
  {
    hide Entries;
    hide Recovered;
    hide WriteCut;
    hide RepairedManifest;
    hide NewEntries;
    hide MustRotate;
    hide RepairRefuses;
    hide RotationRefuses;
    hide MatchesIn;
  }

  // ----------------------------------------------------------- over every run

  /** Without its last write of at most two records the file is within the limit. */
  predicate OneWriteOver(es: seq<LogEntry>, limit: nat) {
    exists n | 0 <= n <= |es| :: |es| - 2 <= n && |EncodeAll(es[..n])| <= limit
  }

  predicate SegmentFits(content: seq<byte>, limit: nat) {
    |content| > limit && OneWriteOver(Entries(content), limit)
  }

  predicate FilesFit(d: Disk, limit: nat) {
    && OneWriteOver(ActiveEntries(d), limit)
    && forall c :: c in Contents(d.segments) ==> SegmentFits(c, limit)
  }

  lemma FitsNow(es: seq<LogEntry>, limit: nat)
    requires |EncodeAll(es)| <= limit
    ensures OneWriteOver(es, limit)
  {
    assert es[..|es|] == es;
  }

  lemma FitsAfter(es: seq<LogEntry>, added: seq<LogEntry>, limit: nat)
    requires |EncodeAll(es)| <= limit && |added| <= 2
    ensures OneWriteOver(es + added, limit)
  {
    assert (es + added)[..|es|] == es;
  }

  lemma PreparedFits(d: Disk, limit: nat)
    requires Sound(d) && ReachesWrite(d, limit) && FilesFit(d, limit)
    ensures FilesFit(Prepared(d, limit), limit) && |EncodeAll(ActiveEntries(Prepared(d, limit)))| <= limit
  {
    hide Entries;
    hide Sound;
    hide Prepared;
    PreparedFiles(d, limit);
    var p, es := Prepared(d, limit), ActiveEntries(d);
    EncodedFileSettles(es);
    EncodedFileSettles([]);
    assert EncodeAll([]) == [];
    hide EncodeAll;
    FitsNow(ActiveEntries(p), limit);
  }

  /** A write, however much of it survives, adds a prefix of its records to the active file. */
  lemma WriteFiles(p: Disk, es: seq<LogEntry>, cut: Cut) returns (n: nat)
    requires Settled(p)
    requires Numbered(es, Mark(p) + 1) && forall e :: e in es ==> FieldsUnique(e.event)
    ensures WriteCut(p, es, cut).segments == p.segments
    ensures n <= |es| && ActiveEntries(WriteCut(p, es, cut)) == ActiveEntries(p) + es[..n]
  {
    hide Entries;
    hide Recovered;
    hide EncodeAll;
    hide Numbered;
    hide Mark;
    hide Survivors;
    hide Sound;
    assert p.active.Some?;
    hide Settled;
    var bytes := EncodeAll(es);
    var k := if cut.AtBytes? && cut.count <= |bytes| then cut.count else |bytes|;
    WriteReads(p, es, k);
    n := Survivors(es, k);
    assert bytes[..|bytes|] == bytes;
    assert WriteCut(p, es, cut).active == Written(p, bytes[..k]).active;
  }

  lemma WriteFits(p: Disk, es: seq<LogEntry>, cut: Cut, limit: nat)
    requires Settled(p) && FilesFit(p, limit) && |EncodeAll(ActiveEntries(p))| <= limit && |es| <= 2
    requires Numbered(es, Mark(p) + 1) && forall e :: e in es ==> FieldsUnique(e.event)
    ensures FilesFit(WriteCut(p, es, cut), limit)
  {
    var n := WriteFiles(p, es, cut);
    hide Entries;
    hide Settled;
    hide EncodeAll;
    hide WriteCut;
    hide OneWriteOver;
    hide SegmentFits;
    FitsAfter(ActiveEntries(p), es[..n], limit);
  }

  lemma RepairFits(d: Disk, cut: Cut, limit: nat)
    requires Sound(d) && d.active.Some? && FilesFit(d, limit)
    ensures FilesFit(Recover(d), limit) && FilesFit(RepairCut(d, cut), limit) && FilesFit(Repaired(d), limit)
  {
    hide Entries;
    hide Sound;
    hide OneWriteOver;
    hide SegmentFits;
    hide Recovered;
    hide RepairedManifest;
    RecoverKeeps(d);
    assert ActiveEntries(RepairCut(d, cut)) == ActiveEntries(d) == ActiveEntries(Repaired(d));
    assert Contents(RepairCut(d, cut).segments) == Contents(d.segments) == Contents(Repaired(d).segments);
  }

  lemma RotationFits(d: Disk, limit: nat, cut: Cut)
    requires Settled(d) && MustRotate(d, limit) && FilesFit(d, limit)
    ensures FilesFit(RotateCut(d, cut), limit)
  {
    hide RotateCut;
    hide Entries;
    hide Sound;
    hide EncodeAll;
    hide SegmentFits;
    hide OneWriteOver;
    hide RotationManifest;
    assert d.active == Some(EncodeAll(ActiveEntries(d)));
    RotationShape(d, limit, cut);
    MustRotateIff(d, limit);
    hide MustRotate;
    hide Settled;
    var r, x := RotateCut(d, cut), Segment(RotationTarget(d), d.active.value, !cut.AtRename?);
    EmptyFits(limit);
    ClosedFits(ActiveEntries(d), limit);
    assert Contents(r.segments) == Contents(d.segments) + [x.content];
  }

  lemma EmptyFits(limit: nat)
    ensures OneWriteOver([], limit)
  {
    assert EncodeAll([]) == [];
    FitsNow([], limit);
  }

  lemma ClosedFits(es: seq<LogEntry>, limit: nat)
    requires OneWriteOver(es, limit) && |EncodeAll(es)| > limit
    ensures SegmentFits(EncodeAll(es), limit)
  {
    EncodedFileSettles(es);
  }

  lemma AppendFits(d: Disk, limit: nat, events: seq<Object>, timestamp: int, cut: Cut, skip: bool)
    requires Sound(d) && FilesFit(d, limit) && |events| <= 2
    ensures FilesFit(AppendEvents(d, limit, events, timestamp, cut, skip), limit)
  {
    hide Entries;
    hide Sound;
    hide Settled;
    hide FilesFit;
    hide RotateCut;
    hide WriteCut;
    hide Prepared;
    hide Mark;
    hide Repaired;
    if d.active.Some? {
      RepairFits(d, cut, limit);
      RepairRestores(d);
      if MustRotate(Repaired(d), limit) {
        RotationFits(Repaired(d), limit, cut);
      }
      if ReachesWrite(d, limit) {
        PreparedKeeps(d, limit);
        PreparedFits(d, limit);
        NextSequenceIsMark(Prepared(d, limit));
        WriteFits(Prepared(d, limit), NewEntries(Prepared(d, limit), events, timestamp), cut, limit);
      }
    }
  }

  lemma StepFits(d: Disk, limit: nat, op: Op)
    requires Sound(d) && FilesFit(d, limit)
    ensures FilesFit(Apply(d, limit, op), limit)
  {
    hide Entries;
    hide Sound;
    hide AppendEvents;
    hide RepairCut;
    hide Recover;
    hide Prepared;
    hide Repaired;
    match op
    case Open(cut) =>
      var created := if d.active.None? then d.(active := Some([])) else d;
      if d.active.None? {
        CreateKeeps(d);
        assert Entries([]) == [] by { EncodedFileSettles([]); assert EncodeAll([]) == []; }
      }
      assert FilesFit(created, limit);
      RepairFits(created, cut, limit);
    case Append(event, timestamp, cut) =>
      AppendFits(d, limit, [event], timestamp, cut, AlreadyLogged(Repaired(d), event));
    case AppendPair(recap, detach, timestamp, cut) =>
      AppendFits(d, limit, [recap, detach], timestamp, cut, false);
    case PairFails(recap, detach, timestamp, replaced) =>
      if ReachesWrite(d, limit) {
        FailedPairKeeps(d, limit, recap, detach, timestamp, replaced);
        PreparedFits(d, limit);
      } else {
        AppendFits(d, limit, [recap, detach], timestamp, Uncut, false);
      }
  }

  /** Over every run from an empty directory, with any crashes and failed pairs: every closed
      segment is larger than the limit, and no file, closed or active, exceeds the limit by more
      than its last write. */
  lemma {:induction false} RunsFit(d: Disk, limit: nat, ops: seq<Op>)
    requires Sound(d) && FilesFit(d, limit)
    ensures FilesFit(Run(d, limit, ops), limit)
    decreases |ops|
  {
    hide Sound;
    hide FilesFit;
    hide Apply;
    hide AllEntries;
    hide Mark;
    if ops != [] {
      StepKeeps(d, limit, ops[0]);
      StepFits(d, limit, ops[0]);
      RunsFit(Apply(d, limit, ops[0]), limit, ops[1..]);
    }
  }

  lemma SegmentsAreFull(limit: nat, ops: seq<Op>)
    ensures FilesFit(Run(EMPTY_DISK, limit, ops), limit)
  {
    EmptyDiskIsSound();
    assert EncodeAll([]) == [];
    FitsNow([], limit);
    RunsFit(EMPTY_DISK, limit, ops);
  }
}
