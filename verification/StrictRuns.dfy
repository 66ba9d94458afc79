/** On a log its own writer left behind, the strict scan reads exactly the log. */
module StrictRuns {
  import opened Json
  import opened Records
  import opened Lines
  import opened Completions
  import opened Storage
  import opened StorageRuns
  import opened StrictScan

  /** Every stored event came from an in-memory object. */
  predicate Authored(es: seq<LogEntry>) {
    forall e :: e in es ==> FieldsUnique(e.event)
  }

  function Contents(segments: seq<Segment>): seq<seq<byte>> {
    seq(|segments|, i requires 0 <= i < |segments| => segments[i].content)
  }

  /** The files the strict scan walks: every segment in name order, then the active file. */
  function CurrentFiles(d: Disk): seq<seq<byte>> {
    Contents(d.segments) + match d.active { case Some(s) => [s] case None => [] }
  }

  lemma {:induction false} EncodedPieces(s: seq<byte>, file: nat, offset: nat, es: seq<LogEntry>)
    requires offset <= |s| && s[offset..] == EncodeAll(es)
    requires forall e :: e in es ==> Writable(e)
    ensures Clean(FilePieces(s, file, offset)) && Goods(FilePieces(s, file, offset)) == es
    decreases |es|
  {
    hide ParseStrict;
    hide EncodeEntry;
    hide FilePieces;
    hide Goods;
    hide Clean;
    if es == [] {
      NoPieces(s, file, offset);
    } else {
      var n := |EncodeEntry(es[0])|;
      OneRecordLine(es[0], EncodeAll(es[1..]));
      assert s[offset + n..] == s[offset..][n..];
      EncodedPieces(s, file, offset + n, es[1..]);
      FirstPiece(s, file, offset, es[0], EncodeAll(es[1..]));
      PiecesCons(Piece(Entry(es[0]), true, Place(file, offset, n)), FilePieces(s, file, offset + n));
      assert es == [es[0]] + es[1..];
    }
  }

  lemma NoPieces(s: seq<byte>, file: nat, offset: nat)
    requires offset <= |s| && s[offset..] == []
    ensures FilePieces(s, file, offset) == [] && Clean([]) && Goods([]) == []
  {
    assert |s[offset..]| == |s| - offset;
  }

  lemma PiecesCons(p: Piece, ps: seq<Piece>)
    requires p.line.Entry? && Clean(ps)
    ensures Clean([p] + ps) && Goods([p] + ps) == [p.line.entry] + Goods(ps)
  {
    assert ([p] + ps)[1..] == ps;
  }

  lemma FirstPiece(s: seq<byte>, file: nat, offset: nat, e: LogEntry, t: seq<byte>)
    requires offset <= |s| && s[offset..] == EncodeEntry(e) + t && Writable(e)
    ensures var n := |EncodeEntry(e)|;
            && offset + n <= |s|
            && FilePieces(s, file, offset)
               == [Piece(Entry(e), true, Place(file, offset, n))] + FilePieces(s, file, offset + n)
  {
    hide ParseStrict;
    hide EncodeEntry;
    hide LineLength;
    var n := |EncodeEntry(e)|;
    OneRecordLine(e, t);
    StrictRoundTrip(e);
    assert s[offset..offset + n] == s[offset..][..n];
    assert s[offset + n - 1] == s[offset..][n - 1] == NEWLINE;
  }

  lemma OneRecordLine(e: LogEntry, t: seq<byte>)
    ensures EncodeEntry(e) != [] && LineLength(EncodeEntry(e) + t) == |EncodeEntry(e)|
    ensures EncodeEntry(e)[|EncodeEntry(e)| - 1] == NEWLINE
    ensures (EncodeEntry(e) + t)[..|EncodeEntry(e)|] == EncodeEntry(e)
    ensures (EncodeEntry(e) + t)[|EncodeEntry(e)|..] == t
  {
    hide Encode;
    hide Envelope;
    NoNewline(Envelope(e));
    LineLengthUnique(EncodeEntry(e) + t, |EncodeEntry(e)|);
  }

  function EntriesOfFiles(files: seq<seq<byte>>, from: nat): seq<LogEntry>
    requires from <= |files|
    decreases |files| - from
  {
    if from == |files| then [] else Entries(files[from]) + EntriesOfFiles(files, from + 1)
  }

  lemma {:induction false} AuthoredPieces(files: seq<seq<byte>>, from: nat)
    requires from <= |files|
    requires forall i :: from <= i < |files| ==> files[i] == EncodeAll(Entries(files[i]))
    requires forall e :: e in EntriesOfFiles(files, from) ==> Writable(e)
    ensures Clean(Pieces(files, from)) && Goods(Pieces(files, from)) == EntriesOfFiles(files, from)
    decreases |files| - from
  {
    hide Entries;
    hide FilePieces;
    if from < |files| {
      var s := files[from];
      assert s[0..] == s;
      EncodedPieces(s, from, 0, Entries(s));
      AuthoredPieces(files, from + 1);
      GoodsConcat(FilePieces(s, from, 0), Pieces(files, from + 1));
    }
  }

  lemma {:induction false} FilesOfSegments(segments: seq<Segment>, tail: seq<seq<byte>>, from: nat)
    requires from <= |segments|
    ensures EntriesOfFiles(Contents(segments) + tail, from)
            == Covered(segments[from..]) + EntriesOfFiles(Contents(segments) + tail, |segments|)
    decreases |segments| - from
  {
    hide Entries;
    if from < |segments| {
      FilesOfSegments(segments, tail, from + 1);
      assert segments[from..][1..] == segments[from + 1..];
    }
  }

  lemma {:induction false} StackedContents(segments: seq<Segment>, from: int)
    requires Stacked(segments, from)
    ensures forall i :: 0 <= i < |segments| ==> segments[i].content == EncodeAll(Entries(segments[i].content))
    decreases |segments|
  {
    hide Entries;
    hide Increasing;
    if segments != [] {
      StackedContents(segments[1..], segments[0].name.last + 1);
      assert forall i :: 0 < i < |segments| ==> segments[i] == segments[1..][i - 1];
    }
  }

  /** The strict scan of a settled log finds no damage; it accepts the log, and yields every
      entry, if and only if the log is numbered 1..n. */
  lemma SettledScan(d: Disk)
    requires Settled(d) && Authored(AllEntries(d))
    ensures Clean(Pieces(CurrentFiles(d), 0)) && Goods(Pieces(CurrentFiles(d), 0)) == AllEntries(d)
    ensures ScanPieces(START, Pieces(CurrentFiles(d), 0))
            == if Numbered(AllEntries(d), 1)
               then Scan(if AllEntries(d) == [] then None else Some(|AllEntries(d)|), None, AllEntries(d))
               else Refused
  {
    hide Entries;
    hide AllEntries;
    hide ScanPieces;
    hide Pieces;
    hide CurrentFiles;
    hide EntriesOfFiles;
    hide Settled;
    hide Goods;
    hide Clean;
    hide Consecutive;
    hide Numbered;
    hide LastSeq;
    var files := CurrentFiles(d);
    SettledFiles(d);
    AuthoredPieces(files, 0);
    NumberedIsConsecutive(AllEntries(d));
    ScanClean(START, Pieces(files, 0));
    assert [] + AllEntries(d) == AllEntries(d);
  }

  /** A settled log consists of whole, strictly readable records. */
  lemma SettledFiles(d: Disk)
    requires Settled(d) && Authored(AllEntries(d))
    ensures EntriesOfFiles(CurrentFiles(d), 0) == AllEntries(d)
    ensures forall i :: 0 <= i < |CurrentFiles(d)| ==> CurrentFiles(d)[i] == EncodeAll(Entries(CurrentFiles(d)[i]))
    ensures forall e :: e in AllEntries(d) ==> Writable(e)
    ensures StartsAtOne(AllEntries(d))
  {
    hide Entries;
    hide EncodeAll;
    hide EntriesOfFiles;
    hide Increasing;
    SoundIsRising(d);
    if AllEntries(d) != [] {
      RisingEnds(AllEntries(d), 1);
    }
    CurrentEntries(d);
    StackedContents(d.segments, 1);
  }

  lemma CurrentEntries(d: Disk)
    requires d.active.Some?
    ensures EntriesOfFiles(CurrentFiles(d), 0) == AllEntries(d)
  {
    hide Entries;
    var tail := [d.active.value];
    var files := CurrentFiles(d);
    assert files == Contents(d.segments) + tail;
    FilesOfSegments(d.segments, tail, 0);
    assert d.segments[0..] == d.segments;
    assert EntriesOfFiles(files, |files|) == [];
    assert EntriesOfFiles(files, |d.segments|) == Entries(d.active.value) + [];
  }

  lemma {:induction false} ConsecutiveIsNumbered(es: seq<LogEntry>, n: nat)
    requires Consecutive(es) && StartsAtOne(es) && n <= |es|
    ensures Numbered(es[..n], 1)
    decreases n
  {
    if n > 1 {
      ConsecutiveIsNumbered(es, n - 1);
      assert es[n - 2] == es[..n - 1][n - 2];
    }
  }

  lemma NumberedIsConsecutive(es: seq<LogEntry>)
    requires StartsAtOne(es)
    ensures Consecutive(es) <==> Numbered(es, 1)
    ensures Numbered(es, 1) && es != [] ==> LastSeq(es) == |es|
  {
    if Consecutive(es) {
      ConsecutiveIsNumbered(es, |es|);
      assert es[..|es|] == es;
    }
  }

  lemma AddedIsAuthored(d: Disk, limit: nat, op: Op)
    ensures Authored(Added(d, limit, op))
  {
    hide Entries;
    hide Repaired;
    hide Prepared;
    hide ReachesWrite;
    hide Kept;
    var p := Prepared(d, limit);
    match op
    case Append(event, timestamp, cut) => KeptIsPrefix(NewEntries(p, [event], timestamp), cut);
    case AppendPair(recap, detach, timestamp, cut) => KeptIsPrefix(NewEntries(p, [recap, detach], timestamp), cut);
    case _ =>
  }

  lemma {:induction false} RunsAreAuthored(d: Disk, limit: nat, ops: seq<Op>)
    ensures Authored(History(d, limit, ops))
    decreases |ops|
  {
    hide Apply;
    hide Added;
    if ops != [] {
      AddedIsAuthored(d, limit, ops[0]);
      RunsAreAuthored(Apply(d, limit, ops[0]), limit, ops[1..]);
    }
  }

  /** After any run, any crashes and any failed pairs, the strict scan of the reopened log
      reads exactly everything that was made durable, or refuses the log: and it refuses it
      if and only if something was written after a failed pair that had raised the manifest. */
  lemma RunsScanIff(limit: nat, ops: seq<Op>)
    ensures var d := Apply(Run(EMPTY_DISK, limit, ops), limit, Open(Uncut));
            var sc := ScanPieces(START, Pieces(CurrentFiles(d), 0));
            && (sc.Scan? <==> !WroteAfterRaise(EMPTY_DISK, limit, ops, false))
            && (sc.Scan? ==> sc.gap == None && sc.output == History(EMPTY_DISK, limit, ops))
  {
    hide Run;
    hide Apply;
    hide History;
    hide Settled;
    hide ScanPieces;
    hide WroteAfterRaise;
    hide AllEntries;
    hide Sound;
    hide Mark;
    hide RaiseCount;
    hide Rising;
    hide Numbered;
    hide Pieces;
    hide CurrentFiles;
    hide Clean;
    hide Goods;
    RunsKeepEverything(limit, ops);
    RunsContiguousIff(limit, ops);
    RunsAreAuthored(EMPTY_DISK, limit, ops);
    SettledScan(Apply(Run(EMPTY_DISK, limit, ops), limit, Open(Uncut)));
  }
}
