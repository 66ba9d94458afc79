/** Runs that break what the log otherwise keeps: a failed pair that leaves a gap, which the
    strict reader then refuses, and a pair that repeats a completion. */
module GapRuns {
  import opened Json
  import opened Records
  import opened Lines
  import opened TailRecovery
  import opened Completions
  import opened Storage
  import opened StorageRuns
  import opened StrictScan
  import opened StrictRuns

  /** On a settled log a rotation is refused only for lack of digits. */
  lemma FirstRotationFits(d: Disk, limit: nat)
    requires Settled(d) && d.segments == [] && Mark(d) < MAX_SEQ && MustRotate(d, limit)
    ensures !RotationRefuses(d)
  {
    hide Entries;
    hide Recovered;
    hide Increasing;
    SoundIsRising(d);
    BoundsOfActive(d);
  }

  /** The shortest run that leaves a gap: one entry, a failed pair whose rotation wrote the
      first manifest and whose update raised it, one more entry. */
  function GapRun(recap: Object, detach: Object, event: Object): seq<Op> {
    [Open(Uncut), Append(event, 0, Uncut), PairFails(recap, detach, 0, true), Append(event, 0, Uncut)]
  }

  lemma FreshlyOpened(limit: nat)
    ensures Apply(EMPTY_DISK, limit, Open(Uncut)) == Disk(Some([]), [], None)
  {
    EncodedFileSettles([]);
    var created := Disk(Some([]), [], None);
    assert Recover(created) == created;
    assert !RepairRefuses(created);
    assert Entries([]) == [];
    assert WithSidecars(created, 0).segments == [];
  }

  lemma FirstAppend(limit: nat, event: Object)
    requires !IsCompletion(event)
    ensures var d := Disk(Some([]), [], None); var e := Apply(d, limit, Append(event, 0, Uncut));
            && e == Disk(Some(EncodeAll([LogEntry(1, 0, event)])), [], None)
            && Settled(e) && AllEntries(e) == [LogEntry(1, 0, event)] && Mark(e) == 1
  {
    hide IsCompletion;
    hide Apply;
    hide EncodeAll;
    hide AddedBy;
    hide AlreadyLogged;
    hide ReachesWrite;
    hide Settled;
    hide AllEntries;
    hide Mark;
    hide Sound;
    var d := Disk(Some([]), [], None);
    EmptyDiskIsSound();
    FreshlyOpened(limit);
    StepKeeps(EMPTY_DISK, limit, Open(Uncut));
    EmptyActiveWrites(d, limit);
    CompletedAppendAdds(d, limit, event, 0);
    StepKeeps(d, limit, Append(event, 0, Uncut));
    AppendSettles(d, limit, event, 0);
    FirstAppendStaysActive(limit, event);
    var e := Apply(d, limit, Append(event, 0, Uncut));
    assert AllEntries(e) == [] + [LogEntry(1, 0, event)] == [LogEntry(1, 0, event)];
    OneFile(e);
  }

  lemma OneFile(d: Disk)
    requires Settled(d) && d.segments == []
    ensures d == Disk(Some(EncodeAll(AllEntries(d))), [], None)
  {
    hide Entries;
    hide Recovered;
    hide EncodeAll;
    assert AllEntries(d) == [] + ActiveEntries(d) == ActiveEntries(d);
  }

  lemma FirstAppendStaysActive(limit: nat, event: Object)
    ensures Apply(Disk(Some([]), [], None), limit, Append(event, 0, Uncut)).segments == []
  {
    hide IsCompletion;
    hide WellFormed;
    hide AlreadyLogged;
    hide EncodeAll;
    hide NewEntries;
    hide RepairedManifest;
    EncodedFileSettles([]);
    assert Repaired(Disk(Some([]), [], None)).segments == [];
  }

  lemma PairFailsOnFirstEntry(limit: nat, recap: Object, detach: Object, event: Object)
    requires limit < |EncodeEntry(LogEntry(1, 0, event))|
    ensures var d := Disk(Some(EncodeAll([LogEntry(1, 0, event)])), [], None);
            var op := PairFails(recap, detach, 0, true);
            Settled(d) && AllEntries(d) == [LogEntry(1, 0, event)] && Mark(d) == 1 ==>
              && Raises(d, limit, op)
              && Settled(Apply(d, limit, op))
              && AllEntries(Apply(d, limit, op)) == AllEntries(d)
              && Mark(Apply(d, limit, op)) == 3
              && Apply(d, limit, op).active == Some([])
  {
    var d := Disk(Some(EncodeAll([LogEntry(1, 0, event)])), [], None);
    var op := PairFails(recap, detach, 0, true);
    if Settled(d) && AllEntries(d) == [LogEntry(1, 0, event)] && Mark(d) == 1 {
      FirstEntryRotates(d, limit, event);
      hide Apply;
      hide Settled;
      hide AllEntries;
      hide Mark;
      hide EncodeAll;
      SettledIsSound(d);
      FailedPairKeeps(d, limit, recap, detach, 0, true);
      PreparedManifest(d, limit);
    }
  }

  lemma FirstEntryRotates(d: Disk, limit: nat, event: Object)
    requires d == Disk(Some(EncodeAll([LogEntry(1, 0, event)])), [], None)
    requires Settled(d) && AllEntries(d) == [LogEntry(1, 0, event)] && Mark(d) == 1
    requires limit < |EncodeEntry(LogEntry(1, 0, event))|
    ensures ReachesWrite(d, limit) && MustRotate(Repaired(d), limit) && Prepared(d, limit).active == Some([])
  {
    hide Entries;
    hide EncodeEntry;
    hide Recovered;
    var es := [LogEntry(1, 0, event)];
    RecoverKeeps(d);
    RepairNeverRefuses(Recover(d));
    RepairRestores(d);
    EncodedEntryIsOneLine(es[0]);
    assert EncodeAll(es) == EncodeEntry(es[0]) + EncodeAll([]) && es[1..] == [];
    assert Repaired(d).active == d.active && |d.active.value| > limit;
    assert ActiveEntries(d) == es by { EncodedFileSettles(es); }
    BoundsOfActive(Repaired(d));
    assert Repaired(d).segments == [];
    FirstRotationFits(Repaired(d), limit);
  }

  lemma EmptyActiveWrites(d: Disk, limit: nat)
    requires Settled(d) && d.active == Some([])
    ensures ReachesWrite(d, limit)
  {
    hide Entries;
    hide RepairRefuses;
    RecoverKeeps(d);
    RepairNeverRefuses(Recover(d));
    EncodedFileSettles([]);
    assert EncodeAll([]) == [];
  }

  /** From an empty directory, with any rotation limit its first record exceeds, a rolled-back
      pair whose manifest update went through makes the next append skip two sequence numbers:
      the log reads 1, 4. */
  lemma FailedPairLeavesGap(limit: nat, recap: Object, detach: Object, event: Object)
    requires !IsCompletion(event) && limit < |EncodeEntry(LogEntry(1, 0, event))|
    ensures var d := Run(EMPTY_DISK, limit, GapRun(recap, detach, event));
            && Settled(d)
            && AllEntries(d) == [LogEntry(1, 0, event), LogEntry(4, 0, event)]
            && !Numbered(AllEntries(d), 1)
            && WroteAfterRaise(EMPTY_DISK, limit, GapRun(recap, detach, event), false)
  {
    hide IsCompletion;
    hide Apply;
    hide Settled;
    hide AllEntries;
    hide Mark;
    hide EncodeAll;
    hide Added;
    hide Raises;
    hide Numbered;
    hide EncodeEntry;
    hide Run;
    hide WroteAfterRaise;
    hide Sound;
    var ops := GapRun(recap, detach, event);
    var a := Apply(EMPTY_DISK, limit, ops[0]);
    var b := Apply(a, limit, ops[1]);
    var c := Apply(b, limit, ops[2]);
    var d := Apply(c, limit, ops[3]);
    FreshlyOpened(limit);
    FirstAppend(limit, event);
    PairFailsOnFirstEntry(limit, recap, detach, event);
    SettledIsSound(c);
    EmptyActiveWrites(c, limit);
    CompletedAppendAdds(c, limit, event, 0);
    StepKeeps(c, limit, ops[3]);
    AppendSettles(c, limit, event, 0);
    FourSteps(EMPTY_DISK, limit, ops, a, b, c, d);
    RunsContiguousIff(limit, ops);
  }

  lemma AppendSettles(d: Disk, limit: nat, event: Object, timestamp: int)
    requires Sound(d) && d.active.Some? && !IsCompletion(event)
    ensures Settled(Apply(d, limit, Append(event, timestamp, Uncut)))
  {
    hide Settled;
    hide Sound;
    hide AppendEvents;
    hide AllEntries;
    hide Repaired;
    AppendEventsKeeps(d, limit, [event], timestamp, Uncut, AlreadyLogged(Repaired(d), event));
  }

  lemma FourSteps(start: Disk, limit: nat, ops: seq<Op>, a: Disk, b: Disk, c: Disk, d: Disk)
    requires |ops| == 4
    requires a == Apply(start, limit, ops[0]) && b == Apply(a, limit, ops[1])
    requires c == Apply(b, limit, ops[2]) && d == Apply(c, limit, ops[3])
    ensures Run(start, limit, ops) == d
    ensures Raises(b, limit, ops[2]) && Added(c, limit, ops[3]) != [] ==> WroteAfterRaise(start, limit, ops, false)
  {
    hide Apply;
    hide Raises;
    hide Added;
    var t1, t2, t3 := ops[1..], ops[1..][1..], ops[1..][1..][1..];
    assert t1[0] == ops[1] && t2[0] == ops[2] && t3[0] == ops[3] && t3[1..] == [];
    assert Run(c, limit, t3) == Run(d, limit, t3[1..]) == d;
    assert Run(b, limit, t2) == Run(c, limit, t3);
    assert Run(a, limit, t1) == Run(b, limit, t2);
    if Raises(b, limit, ops[2]) && Added(c, limit, ops[3]) != [] {
      assert WroteAfterRaise(c, limit, t3, true);
      assert WroteAfterRaise(b, limit, t2, Raises(start, limit, ops[0]) || Raises(a, limit, ops[1]) || false)
          by { AnyRaised(b, limit, t2, Raises(start, limit, ops[0]) || Raises(a, limit, ops[1])); }
      assert WroteAfterRaise(a, limit, t1, Raises(start, limit, ops[0]) || false);
    }
  }

  lemma AnyRaised(d: Disk, limit: nat, ops: seq<Op>, raised: bool)
    requires ops != [] && Raises(d, limit, ops[0]) && WroteAfterRaise(Apply(d, limit, ops[0]), limit, ops[1..], true)
    ensures WroteAfterRaise(d, limit, ops, raised)
  {
  }

  /** The strict reader refuses that non-empty log. */
  lemma GapIsRefused(limit: nat, recap: Object, detach: Object, event: Object)
    requires !IsCompletion(event) && limit < |EncodeEntry(LogEntry(1, 0, event))|
    ensures var d := Run(EMPTY_DISK, limit, GapRun(recap, detach, event));
            && AllEntries(d) == [LogEntry(1, 0, event), LogEntry(4, 0, event)]
            && ScanPieces(START, Pieces(CurrentFiles(d), 0)).Refused?
  {
    hide Run;
    hide Settled;
    hide ScanPieces;
    hide Pieces;
    hide CurrentFiles;
    hide AllEntries;
    hide IsCompletion;
    hide GapRun;
    hide Clean;
    hide Goods;
    var d := Run(EMPTY_DISK, limit, GapRun(recap, detach, event));
    FailedPairLeavesGap(limit, recap, detach, event);
    assert Authored(AllEntries(d));
    SettledScan(d);
  }

  // ------------------------------------------------------ for every limit

  function Repeated(n: nat): string {
    if n == 0 then "" else "x" + Repeated(n - 1)
  }

  lemma {:induction false} RepeatedIsLong(n: nat)
    ensures |EncodeChars(Repeated(n))| > n
  {
    if n > 0 {
      RepeatedIsLong(n - 1);
      assert Repeated(n)[1..] == Repeated(n - 1);
    }
  }

  /** An event whose record is longer than the limit. */
  function LongEvent(limit: nat): Fields {
    Field("text", Str(Repeated(limit)), NoFields)
  }

  lemma LongEventIsLong(limit: nat)
    ensures FieldsUnique(LongEvent(limit)) && !IsCompletion(LongEvent(limit))
    ensures limit < |EncodeEntry(LogEntry(1, 0, LongEvent(limit)))|
  {
    RepeatedIsLong(limit);
    hide EncodeChars;
    hide Repeated;
    var event := LongEvent(limit);
    assert "text"[1] != "type"[1];
    assert Get(event, "type").None? && EventType(event) == "";
    assert |Encode(Str(Repeated(limit)))| > limit;
    assert |EncodeFields(event)| > limit;
    assert |Encode(Dict(event))| > limit;
    var inner := Field("event", Dict(event), NoFields);
    assert |EncodeFields(inner)| > limit;
    var outer := Field("timestamp", Num(0), inner);
    assert |EncodeFields(outer)| > limit;
    assert |EncodeFields(Field("seq", Num(1), outer))| > limit;
    assert Envelope(LogEntry(1, 0, event)) == Dict(Field("seq", Num(1), outer));
  }

  /** Whatever the rotation limit, some run from an empty directory reads 1, 4 and is refused
      by the strict reader. */
  lemma EveryLimitCanGap(limit: nat) returns (ops: seq<Op>)
    ensures var d := Run(EMPTY_DISK, limit, ops);
            && |AllEntries(d)| == 2 && AllEntries(d)[0].seqNo == 1 && AllEntries(d)[1].seqNo == 4
            && ScanPieces(START, Pieces(CurrentFiles(d), 0)).Refused?
  {
    LongEventIsLong(limit);
    hide LongEvent;
    hide Run;
    hide AllEntries;
    hide ScanPieces;
    hide Pieces;
    hide CurrentFiles;
    hide GapRun;
    hide IsCompletion;
    var event: Object := LongEvent(limit);
    ops := GapRun(NoFields, NoFields, event);
    GapIsRefused(limit, NoFields, NoFields, event);
  }

  // ------------------------------------------------- a repeated completion

  function RepeatRun(event: Object): seq<Op> {
    [Open(Uncut), AppendPair(event, event, 0, Uncut)]
  }

  lemma PairAddsBoth(d: Disk, limit: nat, event: Object)
    requires Sound(d) && ReachesWrite(d, limit) && Mark(d) == 0
    ensures Added(d, limit, AppendPair(event, event, 0, Uncut)) == [LogEntry(1, 0, event), LogEntry(2, 0, event)]
  {
    hide Entries;
    hide Settled;
    hide AllEntries;
    hide Prepared;
    hide Mark;
    hide Sound;
    hide Repaired;
    hide ReachesWrite;
    hide LatestSeqForAppend;
    hide EncodeAll;
    hide Survivors;
    PreparedKeeps(d, limit);
    NextSequenceIsMark(Prepared(d, limit));
  }

  /** A pair looks nothing up: given one completion twice, it logs it twice. */
  lemma PairCanRepeatCompletion(limit: nat, event: Object)
    requires IsCompletion(event)
    ensures var d := Run(EMPTY_DISK, limit, RepeatRun(event));
            && AllEntries(d) == [LogEntry(1, 0, event), LogEntry(2, 0, event)]
            && !CompletionsOnce(AllEntries(d))
  {
    hide Apply;
    hide Settled;
    hide AllEntries;
    hide Mark;
    hide Sound;
    hide AddedBy;
    hide ReachesWrite;
    hide IsCompletion;
    hide WellFormed;
    var ops := RepeatRun(event);
    var a := Apply(EMPTY_DISK, limit, ops[0]);
    var b := Apply(a, limit, ops[1]);
    EmptyDiskIsSound();
    FreshlyOpened(limit);
    StepKeeps(EMPTY_DISK, limit, ops[0]);
    EmptyActiveWrites(a, limit);
    PairAddsBoth(a, limit, event);
    StepKeeps(a, limit, ops[1]);
    assert ops[1..][0] == ops[1] && ops[1..][1..] == [];
    assert Run(EMPTY_DISK, limit, ops) == Run(a, limit, ops[1..]) == Run(b, limit, ops[1..][1..]) == b;
    var es := AllEntries(b);
    assert es == [LogEntry(1, 0, event), LogEntry(2, 0, event)];
    assert es[0].event == es[1].event == event;
  }
}
