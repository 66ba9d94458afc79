/** The durable session log as an object: appends, repair, rotation and queries in place. */
module SessionLog {
  import opened Json
  import opened Records
  import opened Lines
  import opened TailRecovery
  import opened Completions
  import opened Storage
  import opened StorageRuns
  import opened Repair
  import opened OffsetCache
  import opened Query
  import opened Views
  import opened Paging
  import opened StrictScan
  import opened StrictRuns

  const REVERSE_SCAN_CHUNK_SIZE: nat := 64 * 1024

  datatype AppendResult =
    | Appended(entry: LogEntry)
    | AlreadyStored(entry: LogEntry)
    | Conflict
    | NotCanonical
    | RotationRefused

  /** How a terminal pair ends: written, or rolled back before or after the manifest was raised. */
  datatype PairFailure = NoFailure | Fails(manifestReplaced: bool)

  function PairOp(recap: Object, detach: Object, timestamp: int, failure: PairFailure): Op {
    match failure
    case NoFailure => AppendPair(recap, detach, timestamp, Uncut)
    case Fails(replaced) => PairFails(recap, detach, timestamp, replaced)
  }

  class AgentSessionLog {
    const limit: nat
    const cache: ActiveFileOffsetCache
    var active: Option<seq<byte>>
    var segments: seq<Segment>
    var manifest: Option<Manifest>
    var quarantined: Option<Gap>
    // inode and modification time of the active file
    var inode: int
    var mtime: int
    // the bytes behind every identity the file has had
    ghost var files: Files

    function OnDisk(): Disk
      reads this
    {
      Disk(active, segments, manifest)
    }

    function ActiveIdentity(): Option<Identity>
      reads this
    {
      match active { case Some(s) => Some(Identity(inode, |s|, mtime)) case None => None }
    }

    /** Every write gives the active file an identity not seen before. */
    ghost predicate Indexed()
      reads this, cache
    {
      && FilesOk(files)
      && CacheSound(cache.State(), files)
      && (forall id :: id in files ==> id.mtime <= mtime)
      && (active.Some? ==> ActiveIdentity().value in files && files[ActiveIdentity().value] == active.value)
    }

    ghost predicate Valid()
      reads this, cache
    {
      Indexed() && Settled(OnDisk()) && Authored(AllEntries(OnDisk()))
    }

    // ------------------------------------------------------------- opening

    /** Opening whatever a predecessor left on disk repairs it. */
    constructor (d: Disk, limit: nat)
      requires Sound(d) && Authored(AllEntries(d))
      ensures Valid() && fresh(cache) && this.limit == limit
      ensures OnDisk() == Apply(d, limit, Open(Uncut))
      ensures AllEntries(OnDisk()) == AllEntries(d)
    {
      hide Entries;
      hide Sound;
      hide Settled;
      hide AllEntries;
      hide Repaired;
      hide Apply;
      OpeningRepairs(d, limit);
      this.limit := limit;
      this.cache := new ActiveFileOffsetCache();
      var s: seq<byte> := if d.active.Some? then d.active.value else [];
      active, segments, manifest, quarantined := Some(s), d.segments, d.manifest, None;
      inode, mtime := 0, 0;
      files := map[Identity(0, |s|, 0) := s];
      new;
      RepairManifest();
    }

    method SetActive(s: seq<byte>, inode': int)
      requires Indexed() && Increasing(Entries(s))
      modifies this`active, this`inode, this`mtime, this`files
      ensures Indexed() && active == Some(s)
    {
      hide Entries;
      hide EntryAt;
      mtime := mtime + 1;
      inode := inode';
      active := Some(s);
      files := files[ActiveIdentity().value := s];
    }

    method RepairManifest()
      requires Indexed() && Sound(OnDisk()) && active.Some?
      modifies this`active, this`inode, this`mtime, this`files, this`segments, this`manifest
      ensures Indexed() && OnDisk() == Repaired(old(OnDisk()))
    {
      hide Entries;
      hide Sound;
      hide RepairRefuses;
      hide RepairedManifest;
      hide Recovered;
      RecoverKeeps(OnDisk());
      RepairNeverRefuses(Recover(OnDisk()));
      SoundFileIncreases(Recover(OnDisk()));
      var s := RecoverTornActiveTail(active.value, REVERSE_SCAN_CHUNK_SIZE);
      if s != active.value {
        SetActive(s, inode);
      }
      var repaired := RepairFiles(OnDisk(), REVERSE_SCAN_CHUNK_SIZE);
      segments, manifest := repaired.value.segments, repaired.value.manifest;
    }

    method RotateIfNeeded() returns (ok: bool)
      requires Indexed() && Settled(OnDisk())
      modifies this, cache
      ensures Indexed()
      ensures ok == !(MustRotate(old(OnDisk()), limit) && RotationRefuses(old(OnDisk())))
      ensures OnDisk() == if ok && MustRotate(old(OnDisk()), limit) then Rotated(old(OnDisk())) else old(OnDisk())
      ensures quarantined == old(quarantined)
    {
      hide Entries;
      hide Settled;
      hide CacheSound;
      hide FilesOk;
      hide Insert;
      SettledHasActive(OnDisk());
      var d := OnDisk();
      if |active.value| == 0 || |active.value| <= limit {
        return true;
      }
      var first, last := SeqBoundsForFile(active.value, REVERSE_SCAN_CHUNK_SIZE);
      if first <= 0 || last <= 0 {
        return true;
      }
      var base := BaseManifest(d);
      var target := SegmentName(first, last, base.generation);
      if !Nameable(target) || target in Names(segments) {
        return false;
      }
      segments := Insert(segments, Segment(target, active.value, true));
      manifest := Some(Manifest(base.generation + 1, base.rows + [target],
                                if base.minSeq != 0 then base.minSeq else 1, Max(base.latestSeq, last)));
      NoLines();
      SetActive([], inode + 1);
      cache.Clear();
      EmptyIsSound(files);
      return true;
    }

    // ----------------------------------------------------------- appending

    method LatestSeq() returns (latest: int)
      ensures latest == LatestSeqForAppend(OnDisk())
    {
      hide Entries;
      latest := if manifest.Some? then manifest.value.latestSeq else 0;
      if active.Some? {
        var inFile := LatestSeqFromHandle(active.value, REVERSE_SCAN_CHUNK_SIZE);
        latest := Max(latest, inFile);
      } else {
        latest := Max(latest, 0);
      }
    }

    /** Writes whole records at the end of the active file. */
    method WriteBytes(es: seq<LogEntry>)
      requires Indexed() && Settled(OnDisk())
      requires Numbered(es, Mark(OnDisk()) + 1) && Authored(es)
      modifies this`active, this`inode, this`mtime, this`files
      ensures Indexed()
      ensures OnDisk() == Written(old(OnDisk()), EncodeAll(es))
    {
      hide Entries;
      hide Settled;
      hide EncodeAll;
      hide CacheSound;
      hide FilesOk;
      WriteIsNext(OnDisk(), es);
      SetActive(active.value + EncodeAll(es), inode);
    }

    /** The manifest's high-water mark only ever moves up. */
    method RaiseManifest(latest: int)
      requires Indexed()
      modifies this`manifest
      ensures Indexed()
      ensures OnDisk() == Noted(old(OnDisk()), latest)
    {
      if manifest.Some? && latest > manifest.value.latestSeq {
        manifest := Some(manifest.value.(latestSeq := latest));
      }
    }

    /** Tells the cache where each new record begins. */
    method NoteEntries(before: seq<byte>, es: seq<LogEntry>)
      requires Indexed() && Terminated(before) && active == Some(before + EncodeAll(es))
      modifies cache
      ensures Indexed()
    {
      hide Entries;
      hide EntryAt;
      hide EncodeEntry;
      hide EncodeAll;
      var i, offset := 0, |before|;
      EncodeNothing();
      assert es[..0] == [];
      while i < |es|
        invariant 0 <= i <= |es| && offset == |before| + |EncodeAll(es[..i])|
        invariant Indexed()
      {
        RecordAt(before, es, i);
        UpdateSound(cache.State(), files, ActiveIdentity().value, es[i].seqNo, offset);
        cache.Update(es[i].seqNo, offset, ActiveIdentity());
        offset := offset + |EncodeEntry(es[i])|;
        i := i + 1;
      }
    }

    /** The rest of an append once the log is repaired: rotate, number, write and note. */
    method FinishAppend(events: seq<Object>, timestamp: int, ghost d: Disk) returns (r: Option<seq<LogEntry>>)
      requires Indexed() && Sound(d) && d.active.Some? && OnDisk() == Repaired(d)
      modifies this, cache
      ensures Indexed() && quarantined == old(quarantined)
      ensures OnDisk() == AppendEvents(d, limit, events, timestamp, Uncut, false)
      ensures r.None? <==> !ReachesWrite(d, limit)
      ensures r.Some? ==>
                r.value == Continuation(d, events, timestamp) && AllEntries(OnDisk()) == AllEntries(d) + r.value
      ensures r.None? ==> AllEntries(OnDisk()) == AllEntries(d)
    {
      hide Entries;
      hide Sound;
      hide Settled;
      hide AllEntries;
      hide Repaired;
      hide Rotated;
      hide Indexed;
      hide Mark;
      hide Noted;
      hide EncodeAll;
      hide Terminated;
      RecoverKeeps(d);
      RepairNeverRefuses(Recover(d));
      RepairRestores(d);
      AppendEventsKeeps(d, limit, events, timestamp, Uncut, false);
      var ok := RotateIfNeeded();
      if !ok {
        return None;
      }
      PreparedKeeps(d, limit);
      var latest := LatestSeq();
      NextSequenceIsMark(OnDisk());
      SettledIsTerminated(OnDisk());
      var es := seq(|events|, i requires 0 <= i < |events| => LogEntry(latest + 1 + i, timestamp, events[i]));
      var before := active.value;
      WriteBytes(es);
      NoteEntries(before, es);
      RaiseManifest(latest + |es|);
      return Some(es);
    }

    method Append(event: Object, timestamp: int) returns (r: AppendResult)
      requires Valid()
      modifies this, cache
      ensures Valid()
      ensures OnDisk() == Apply(old(OnDisk()), limit, Storage.Append(event, timestamp, Uncut))
      ensures var before := old(AllEntries(OnDisk()));
              match r
              case Appended(e) =>
                && e == LogEntry(Mark(old(OnDisk())) + 1, timestamp, event)
                && AllEntries(OnDisk()) == before + [e]
              case AlreadyStored(e) =>
                && AllEntries(OnDisk()) == before
                && IsCompletion(event)
                && MatchesIn(before, event) != [] && MatchesIn(before, event)[0] == e
                && forall x :: x in MatchesIn(before, event) ==> SameCompletion(x.event, event)
              case Conflict =>
                && AllEntries(OnDisk()) == before
                && IsCompletion(event)
                && exists x :: x in MatchesIn(before, event) && !SameCompletion(x.event, event)
              case NotCanonical => AllEntries(OnDisk()) == before && IsCompletion(event) && !WellFormed(event)
              case RotationRefused => AllEntries(OnDisk()) == before && !ReachesWrite(old(OnDisk()), limit)
    {
      hide Entries;
      hide Sound;
      hide Settled;
      hide AllEntries;
      hide Repaired;
      hide Indexed;
      hide ReachesWrite;
      hide WriteCut;
      hide RotateCut;
      hide IsCompletion;
      hide WellFormed;
      hide SameCompletion;
      hide Authored;
      ghost var d := OnDisk();
      ghost var op := Storage.Append(event, timestamp, Uncut);
      StepStaysValid(d, limit, op);
      if IsCompletion(event) && !WellFormed(event) {
        return NotCanonical;
      }
      RepairIsNext(d);
      RepairManifest();
      if IsCompletion(event) {
        var found := StoredCompletions(event);
        if found != [] {
          r := CompareStored(found, event);
          return;
        }
      }
      var written := FinishAppend([event], timestamp, d);
      if written.None? {
        return RotationRefused;
      }
      return Appended(written.value[0]);
    }

    /** Every stored copy must agree with the event; the first one is the original. */
    static method CompareStored(found: seq<LogEntry>, event: Object) returns (r: AppendResult)
      requires found != []
      ensures r == AlreadyStored(found[0]) || r == Conflict
      ensures r.AlreadyStored? <==> forall x :: x in found ==> SameCompletion(x.event, event)
    {
      hide SameCompletion;
      var i := 0;
      while i < |found|
        invariant 0 <= i <= |found|
        invariant forall j :: 0 <= j < i ==> SameCompletion(found[j].event, event)
      {
        if !SameCompletion(found[i].event, event) {
          assert found[i] in found;
          return Conflict;
        }
        i := i + 1;
      }
      return AlreadyStored(found[0]);
    }

    /** Both terminal records in one write, or neither: a failure after the write truncates the
        active file back. The manifest cannot be lowered again. */
    method AppendTerminalPair(recap: Object, detach: Object, timestamp: int, failure: PairFailure)
      returns (r: Option<seq<LogEntry>>)
      requires Valid()
      modifies this, cache
      ensures Valid()
      ensures OnDisk() == Apply(old(OnDisk()), limit, PairOp(recap, detach, timestamp, failure))
      ensures var before, mark := old(AllEntries(OnDisk())), old(Mark(OnDisk()));
              match r
              case Some(es) =>
                && failure.NoFailure?
                && es == [LogEntry(mark + 1, timestamp, recap), LogEntry(mark + 2, timestamp, detach)]
                && AllEntries(OnDisk()) == before + es
              case None =>
                && (failure.NoFailure? ==> !ReachesWrite(old(OnDisk()), limit))
                && AllEntries(OnDisk()) == before
    {
      hide Entries;
      hide Sound;
      hide Settled;
      hide AllEntries;
      hide Repaired;
      hide Indexed;
      hide Authored;
      hide AppendEvents;
      hide Mark;
      ghost var d := OnDisk();
      StepStaysValid(d, limit, PairOp(recap, detach, timestamp, failure));
      RepairIsNext(d);
      RepairManifest();
      if failure.NoFailure? {
        r := FinishAppend([recap, detach], timestamp, d);
      } else {
        RollBackPair(recap, detach, timestamp, failure.manifestReplaced, d);
        r := None;
      }
    }

    /** The pair's write, the failure after it and the rollback, once the log is repaired. */
    method RollBackPair(recap: Object, detach: Object, timestamp: int, manifestReplaced: bool, ghost d: Disk)
      requires Indexed() && Sound(d) && d.active.Some? && OnDisk() == Repaired(d)
      modifies this, cache
      ensures Indexed() && quarantined == old(quarantined)
      ensures OnDisk() == Apply(d, limit, PairFails(recap, detach, timestamp, manifestReplaced))
    {
      hide Entries;
      hide Sound;
      hide Settled;
      hide AllEntries;
      hide Repaired;
      hide Rotated;
      hide Indexed;
      hide Noted;
      hide LatestSeqForAppend;
      hide MustRotate;
      hide RotationRefuses;
      RecoverKeeps(d);
      RepairNeverRefuses(Recover(d));
      RepairRestores(d);
      var ok := RotateIfNeeded();
      if ok {
        PreparedKeeps(d, limit);
        WriteAndTruncate(recap, detach, timestamp, manifestReplaced);
      }
    }

    /** Both records written, the manifest raised or not, the file cut back to its old size,
        and the manifest told the old mark again. */
    method WriteAndTruncate(recap: Object, detach: Object, timestamp: int, manifestReplaced: bool)
      requires Indexed() && Settled(OnDisk())
      modifies this`active, this`inode, this`mtime, this`files, this`manifest
      ensures Indexed()
      ensures var p := old(OnDisk());
              OnDisk() == if manifestReplaced then Noted(p, LatestSeqForAppend(p) + 2) else p
    {
      hide Entries;
      hide Settled;
      hide AllEntries;
      hide Indexed;
      hide Mark;
      hide EncodeAll;
      ghost var p := OnDisk();
      var previous := LatestSeq();
      NextSequenceIsMark(p);
      SettledFileIncreases(p);
      NotedTwice(p, previous);
      hide LatestSeqForAppend;
      var es := [LogEntry(previous + 1, timestamp, recap), LogEntry(previous + 2, timestamp, detach)];
      var before := active.value;
      WriteBytes(es);
      if manifestReplaced {
        RaiseManifest(previous + 2);
      }
      assert active.value[..|before|] == before;
      SetActive(active.value[..|before|], inode);
      RaiseManifest(previous);
    }

    /** The stored completions with the event's id, found through the text index. */
    method StoredCompletions(event: Object) returns (found: seq<LogEntry>)
      requires Indexed() && Settled(OnDisk())
      modifies cache
      ensures Indexed()
      ensures found == MatchesIn(AllEntries(OnDisk()), event)
    {
      hide Entries;
      hide Settled;
      hide AllEntries;
      hide LookupSpec;
      hide Indexed;
      hide WithId;
      hide Select;
      var candidates := QueryAsc(LookupSpec(event), None);
      found := [];
      var i := 0;
      assert candidates[0..] == candidates;
      while i < |candidates|
        invariant 0 <= i <= |candidates|
        invariant Indexed()
        invariant found + WithId(candidates[i..], event) == WithId(candidates, event)
      {
        WithIdStep(candidates, i, event);
        if Get(candidates[i].event, "event_id") == Some(Str(EventId(event))) {
          found := found + [candidates[i]];
        }
        i := i + 1;
      }
      WithIdEnd(candidates, event);
      LookupFindsMatches(AllEntries(OnDisk()), event);
    }

    // ------------------------------------------------------------- queries

    /** Ascending: prune files by bounds, start inside the active file by the cache, stop early. */
    method QueryAsc(spec: QuerySpec, limit: Option<nat>) returns (results: seq<LogEntry>)
      requires Indexed() && Settled(OnDisk())
      requires limit.Some? ==> limit.value > 0
      modifies cache
      ensures Indexed()
      ensures results == Take(limit, Select(AllEntries(OnDisk()), spec))
    {
      hide Entries;
      hide Settled;
      hide AllEntries;
      hide Ahead;
      hide ViewOk;
      hide Select;
      var d := OnDisk();
      var views := SegmentView(d, REVERSE_SCAN_CHUNK_SIZE);
      SettledViews(d);
      var vs := views.value;
      ghost var goal := Take(limit, Select(AllEntries(d), spec));
      FromNothing(AllEntries(d), spec, limit);
      results := [];
      var i := 0;
      assert vs[0..] == vs;
      while i < |vs|
        invariant 0 <= i <= |vs|
        invariant Indexed()
        invariant limit.Some? ==> |results| < limit.value
        invariant Ahead(results, ViewEntries(vs[i..]), spec, limit, goal)
      {
        var v := vs[i];
        ghost var rest := ViewEntries(vs[i + 1..]);
        ViewStep(vs, i);
        ViewMembers(v);
        if spec.beforeSeq.Some? && v.first > spec.beforeSeq.value {
          PastTheEnd(vs, i, spec);
          AheadStops(results, ViewEntries(vs[i..]), spec, limit, goal);
          return;
        }
        i := i + 1;
        if spec.afterSeq.Some? && v.last < spec.afterSeq.value {
          AheadSkip(results, Entries(v.content), rest, spec, limit, goal);
          continue;
        }
        var id := if v.active then ActiveIdentity() else None;
        ViewIsIncreasing(v);
        ActiveViewIsFile(d, v);
        var found := QueryAscFile(v.content, id, id, spec, Remaining(limit, |results|), cache, files);
        AheadFile(results, Entries(v.content), rest, spec, limit, goal);
        results := results + found;
        if limit.Some? && |results| >= limit.value {
          return;
        }
        AheadLimit(results, rest, spec, limit, goal);
      }
      assert vs[i..] == [];
      AheadStops(results, [], spec, limit, goal);
    }

    /** Descending: the same view backwards, each file through the reverse line reader. */
    method QueryDesc(spec: QuerySpec, limit: Option<nat>) returns (results: seq<LogEntry>)
      requires Settled(OnDisk())
      requires limit.Some? ==> limit.value > 0
      ensures results == Take(limit, Reversed(Select(AllEntries(OnDisk()), spec)))
    {
      hide Entries;
      hide Settled;
      hide AllEntries;
      hide Ahead;
      hide ViewOk;
      hide Select;
      hide Reversed;
      var d := OnDisk();
      var views := SegmentView(d, REVERSE_SCAN_CHUNK_SIZE);
      SettledViews(d);
      var vs := views.value;
      ghost var all := Reversed(AllEntries(d));
      SelectReversed(AllEntries(d), spec);
      ghost var goal := Take(limit, Select(all, spec));
      FromNothing(all, spec, limit);
      results := [];
      var i := |vs|;
      assert vs[..i] == vs;
      while i > 0
        invariant 0 <= i <= |vs|
        invariant limit.Some? ==> |results| < limit.value
        invariant Ahead(results, Reversed(ViewEntries(vs[..i])), spec, limit, goal)
      {
        i := i - 1;
        var v := vs[i];
        ghost var es := Reversed(Entries(v.content));
        ghost var rest := Reversed(ViewEntries(vs[..i]));
        ViewStepDown(vs, i);
        ViewMembers(v);
        ReversedMembers(Entries(v.content));
        if spec.beforeSeq.Some? && v.first > spec.beforeSeq.value {
          AheadSkip(results, es, rest, spec, limit, goal);
          continue;
        }
        if spec.afterSeq.Some? && v.last < spec.afterSeq.value {
          BelowTheStart(vs, i, spec);
          AheadStops(results, Reversed(ViewEntries(vs[..i + 1])), spec, limit, goal);
          return;
        }
        ViewIsIncreasing(v);
        var found := QueryDescFile(v.content, REVERSE_SCAN_CHUNK_SIZE, spec, Remaining(limit, |results|));
        AheadFile(results, es, rest, spec, limit, goal);
        results := results + found;
        if limit.Some? && |results| >= limit.value {
          return;
        }
        AheadLimit(results, rest, spec, limit, goal);
      }
      assert vs[..i] == [];
      NoViewsReversed();
      AheadStops(results, [], spec, limit, goal);
    }

    /** The indexed query answers exactly what the plain filter of the whole log would. */
    method Query(spec: QuerySpec, order: Order, limit: Option<int>, cursor: Option<Cursor>) returns (answer: Answer)
      requires Valid()
      modifies cache
      ensures Valid()
      ensures answer == PageOf(AllEntries(OnDisk()), spec, order, limit, cursor)
    {
      hide Entries;
      hide Settled;
      hide AllEntries;
      hide Select;
      hide Effective;
      if (limit.Some? && limit.value <= 0) || (cursor.Some? && cursor.value.direction != order) {
        return Invalid;
      }
      var effective := Effective(spec, order, cursor);
      if EmptyRange(spec) || (cursor.Some? && EmptyRange(effective)) {
        NothingInRange(AllEntries(OnDisk()), spec, order, cursor);
        return Answer([], None);
      }
      var fetched: seq<LogEntry>;
      if order.Asc? {
        fetched := QueryAsc(effective, FetchLimit(limit));
      } else {
        fetched := QueryDesc(effective, FetchLimit(limit));
      }
      return CutPage(fetched, order, limit);
    }

    /** The strict query validates every source byte first. It answers the indexed pages over
        the entries the caller may see exactly when the log is numbered 1..n, and refuses a log
        with a gap. */
    method QueryCurrentStrict(spec: QuerySpec, order: Order, limit: Option<int>, cursor: Option<Cursor>,
                              excluded: set<int>, hidden: LogEntry -> bool)
      returns (answer: Option<Answer>)
      requires Valid()
      modifies this`quarantined
      ensures Valid() && quarantined == None
      ensures !ValidArguments(order, limit, cursor) ==> answer == Some(Invalid)
      ensures ValidArguments(order, limit, cursor) ==>
                answer == if Numbered(AllEntries(OnDisk()), 1)
                          then Some(PageOf(VisibleOf(AllEntries(OnDisk()), excluded, hidden), spec, order, limit,
                                           cursor))
                          else None
    {
      hide Entries;
      hide Settled;
      hide AllEntries;
      hide Full;
      hide PageOf;
      hide ScanPieces;
      hide Pieces;
      hide CurrentFiles;
      hide Acceptable;
      hide Goods;
      hide Numbered;
      SettledScan(OnDisk());
      ScanAcceptsExactly(Pieces(CurrentFiles(OnDisk()), 0));
      answer, quarantined := StrictPage(CurrentFiles(OnDisk()), spec, order, limit, cursor, excluded, hidden);
    }
  }

  /** The strict query over any files: a scan that meets damage it cannot step over refuses
      the query, and otherwise every page is cut from the well-formed entries. */
  method StrictPage(files: seq<seq<byte>>, spec: QuerySpec, order: Order, limit: Option<int>, cursor: Option<Cursor>,
                    excluded: set<int>, hidden: LogEntry -> bool)
    returns (answer: Option<Answer>, gap: Option<Gap>)
    ensures !ValidArguments(order, limit, cursor) ==> answer == Some(Invalid) && gap == None
    ensures ValidArguments(order, limit, cursor) ==> (answer.None? <==> !Acceptable(Pieces(files, 0)))
    ensures answer.None? ==> gap == None
    ensures ValidArguments(order, limit, cursor) && answer.Some? ==>
              && answer.value == PageOf(VisibleOf(Goods(Pieces(files, 0)), excluded, hidden), spec, order, limit,
                                        cursor)
              && ScanPieces(START, Pieces(files, 0)).Scan?
              && gap == ScanPieces(START, Pieces(files, 0)).gap
              && (gap.None? <==> Clean(Pieces(files, 0)))
  {
    hide ScanPieces;
    hide Pieces;
    hide Acceptable;
    hide Clean;
    hide Goods;
    hide Select;
    hide Effective;
    hide VisibleOf;
    if (limit.Some? && limit.value <= 0) || (cursor.Some? && cursor.value.direction != order) {
      return Some(Invalid), None;
    }
    ScanAcceptsExactly(Pieces(files, 0));
    var scan := ScanCurrentStrict(files);
    if scan.Refused? {
      return None, None;
    }
    AcceptedScan(Pieces(files, 0), 0);
    var fetched := StrictFetch(scan.output, Effective(spec, order, cursor), order, FetchLimit(limit), excluded, hidden);
    return Some(CutPage(fetched, order, limit)), scan.gap;
  }

  // ------------------------------------------------------------------ lemmas

  lemma SettledHasActive(d: Disk)
    requires Settled(d)
    ensures Sound(d) && d.active.Some?
  {
  }

  /** The entries that continue a log with these events. */
  function Continuation(d: Disk, events: seq<Object>, timestamp: int): seq<LogEntry> {
    seq(|events|, i requires 0 <= i < |events| => LogEntry(Mark(d) + 1 + i, timestamp, events[i]))
  }

  lemma OpeningRepairs(d: Disk, limit: nat)
    requires Sound(d)
    ensures var s: seq<byte> := if d.active.Some? then d.active.value else [];
            var created := Disk(Some(s), d.segments, d.manifest);
            && Sound(created)
            && Increasing(Entries(s))
            && Apply(d, limit, Open(Uncut)) == Repaired(created)
            && Settled(Repaired(created))
            && AllEntries(Repaired(created)) == AllEntries(d)
  {
    hide Entries;
    hide Sound;
    hide Settled;
    hide AllEntries;
    hide Repaired;
    if d.active.None? { CreateKeeps(d); }
    var s: seq<byte> := if d.active.Some? then d.active.value else [];
    var created := Disk(Some(s), d.segments, d.manifest);
    assert created == if d.active.None? then d.(active := Some([])) else d;
    SoundFileIncreases(created);
    RecoverKeeps(created);
    RepairNeverRefuses(Recover(created));
    RepairRestores(created);
  }

  lemma StepStaysValid(d: Disk, limit: nat, op: Op)
    requires Settled(d) && Authored(AllEntries(d))
    requires op.PairFails? || ((op.Append? || op.AppendPair?) && op.cut.Uncut?)
    ensures Settled(Apply(d, limit, op)) && Authored(AllEntries(Apply(d, limit, op)))
    ensures op.PairFails? ==> AllEntries(Apply(d, limit, op)) == AllEntries(d)
    ensures op.Append? && IsCompletion(op.event) && (!WellFormed(op.event)
                                                     || MatchesIn(AllEntries(d), op.event) != []) ==>
              AllEntries(Apply(d, limit, op)) == AllEntries(d)
  {
    hide Entries;
    hide Sound;
    hide Settled;
    hide AllEntries;
    hide Repaired;
    hide AppendEvents;
    hide IsCompletion;
    hide WellFormed;
    SettledHasActive(d);
    StepKeeps(d, limit, op);
    AddedIsAuthored(d, limit, op);
    RepairRestores(d);
    match op
    case Append(event, timestamp, cut) =>
      AppendEventsKeeps(d, limit, [event], timestamp, cut, AlreadyLogged(Repaired(d), event));
    case AppendPair(recap, detach, timestamp, cut) =>
      AppendEventsKeeps(d, limit, [recap, detach], timestamp, cut, false);
    case PairFails(recap, detach, timestamp, replaced) =>
      if ReachesWrite(d, limit) {
        FailedPairKeeps(d, limit, recap, detach, timestamp, replaced);
      } else {
        AppendEventsKeeps(d, limit, [recap, detach], timestamp, Uncut, false);
      }
  }

  lemma WriteIsNext(d: Disk, es: seq<LogEntry>)
    requires Settled(d) && Numbered(es, Mark(d) + 1) && Authored(es)
    ensures d.active.Some?
    ensures Increasing(Entries(d.active.value + EncodeAll(es)))
  {
    hide Entries;
    hide Settled;
    hide EncodeAll;
    hide Sound;
    hide Increasing;
    hide Kept;
    hide Mark;
    SettledHasActive(d);
    WriteKeeps(d, es, AtWritten);
    SoundFileIncreases(WriteCut(d, es, AtWritten));
  }

  lemma SettledFileIncreases(d: Disk)
    requires Settled(d)
    ensures d.active.Some? && Increasing(Entries(d.active.value))
  {
    hide Entries;
    SoundFileIncreases(d);
  }

  lemma SettledIsTerminated(d: Disk)
    requires Settled(d)
    ensures d.active.Some? && Terminated(d.active.value)
  {
    hide Entries;
    EncodedFileSettles(ActiveEntries(d));
  }

  /** Lowering what was just raised changes nothing. */
  lemma NotedTwice(p: Disk, previous: int)
    requires previous == LatestSeqForAppend(p)
    ensures Noted(Noted(p, previous + 2), previous) == Noted(p, previous + 2)
    ensures LatestSeqForAppend(p) == Mark(p) && Settled(p) ==> Noted(p, previous) == p
  {
    hide Entries;
    hide Recovered;
    hide Increasing;
  }

  lemma EncodeNothing()
    ensures EncodeAll([]) == []
  {
  }

  /** Where the i-th record of a write begins. */
  lemma RecordAt(before: seq<byte>, es: seq<LogEntry>, i: nat)
    requires Terminated(before) && i < |es|
    ensures EntryAt(before + EncodeAll(es), es[i].seqNo, |before| + |EncodeAll(es[..i])|)
    ensures |EncodeAll(es[..i + 1])| == |EncodeAll(es[..i])| + |EncodeEntry(es[i])|
  {
    hide EncodeEntry;
    hide ParseEntry;
    hide LineLength;
    var front, rest := EncodeAll(es[..i]), EncodeAll(es[i + 1..]);
    var s, offset := before + EncodeAll(es), |before| + |front|;
    assert es == es[..i] + es[i..] && es[i..][1..] == es[i + 1..] && es[..i + 1] == es[..i] + [es[i]];
    EncodeAllConcat(es[..i], es[i..]);
    EncodeAllConcat(es[..i], [es[i]]);
    assert [es[i]][1..] == [];
    assert EncodeAll([es[i]]) == EncodeEntry(es[i]) + [] == EncodeEntry(es[i]);
    assert s[offset..] == EncodeEntry(es[i]) + rest;
    OneRecordLine(es[i], rest);
    EntryReads(es[i]);
    RecordsStartLines(before, es[..i], EncodeAll(es[i..]));
  }

  lemma RecordsStartLines(before: seq<byte>, es: seq<LogEntry>, rest: seq<byte>)
    requires Terminated(before)
    ensures LineStart(before + (EncodeAll(es) + rest), |before| + |EncodeAll(es)|)
  {
    EncodedFileSettles(es);
  }

  lemma RepairIsNext(d: Disk)
    requires Settled(d)
    ensures Sound(d) && d.active.Some? && !RepairRefuses(Recover(d))
    ensures Settled(Repaired(d)) && AllEntries(Repaired(d)) == AllEntries(d)
  {
    hide Entries;
    hide AllEntries;
    SettledHasActive(d);
    RecoverKeeps(d);
    RepairNeverRefuses(Recover(d));
    RepairRestores(d);
  }

  lemma SoundFileIncreases(d: Disk)
    requires Sound(d) && d.active.Some?
    ensures Increasing(Entries(d.active.value))
  {
    hide Entries;
    hide Recovered;
    hide Increasing;
    hide Stacked;
    hide ManifestSound;
    hide AllEntries;
    assert Rising(ActiveEntries(d), NextSeq(d.segments, 1));
  }

  lemma ViewIsIncreasing(v: View)
    requires ViewOk(v)
    ensures Increasing(Entries(v.content))
  {
  }

  lemma ActiveViewIsFile(d: Disk, v: View)
    requires v in ViewsOf(d.segments) + ActiveView(d)
    ensures v.active ==> d.active == Some(v.content)
  {
  }

  lemma ViewStep(vs: seq<View>, i: nat)
    requires i < |vs|
    ensures ViewEntries(vs[i..]) == Entries(vs[i].content) + ViewEntries(vs[i + 1..])
  {
    hide Entries;
    assert vs[i..][1..] == vs[i + 1..];
  }

  lemma ViewStepDown(vs: seq<View>, i: nat)
    requires i < |vs|
    ensures Reversed(ViewEntries(vs[..i + 1])) == Reversed(Entries(vs[i].content)) + Reversed(ViewEntries(vs[..i]))
  {
    hide Entries;
    assert vs[..i + 1] == vs[..i] + [vs[i]];
    ViewEntriesConcat(vs[..i], [vs[i]]);
    assert [vs[i]][1..] == [];
    assert ViewEntries([vs[i]]) == Entries(vs[i].content) + ViewEntries([vs[i]][1..]);
    assert Entries(vs[i].content) + [] == Entries(vs[i].content);
    ReversedConcat(ViewEntries(vs[..i]), ViewEntries([vs[i]]));
  }

  lemma NoViewsReversed()
    ensures Reversed(ViewEntries([])) == []
  {
  }

  lemma PastTheEnd(vs: seq<View>, i: nat, spec: QuerySpec)
    requires ViewsOk(vs) && i < |vs| && spec.beforeSeq.Some? && vs[i].first > spec.beforeSeq.value
    ensures forall e :: e in ViewEntries(vs[i..]) ==> !InRange(e, spec)
  {
    hide Entries;
    forall j | 0 <= j < |vs[i..]|
      ensures ViewOk(vs[i..][j]) && vs[i..][j].first > spec.beforeSeq.value
    {
      assert vs[i..][j] == vs[i + j] && ViewOk(vs[i]);
    }
    LaterViewMembers(vs[i..], spec.beforeSeq.value);
  }

  lemma BelowTheStart(vs: seq<View>, i: nat, spec: QuerySpec)
    requires ViewsOk(vs) && i < |vs| && spec.afterSeq.Some? && vs[i].last < spec.afterSeq.value
    ensures forall e :: e in Reversed(ViewEntries(vs[..i + 1])) ==> !InRange(e, spec)
  {
    hide Entries;
    var us := vs[..i + 1];
    forall j | 0 <= j < |us|
      ensures ViewOk(us[j]) && us[j].last < spec.afterSeq.value
    {
      assert us[j] == vs[j] && ViewOk(vs[j]) && ViewOk(vs[i]);
    }
    EarlierViewMembers(us, spec.afterSeq.value);
    ReversedMembers(ViewEntries(us));
  }

  lemma AheadLimit(results: seq<LogEntry>, rest: seq<LogEntry>, spec: QuerySpec, limit: Option<nat>,
                   goal: seq<LogEntry>)
    requires Ahead(results, rest, spec, limit, goal)
    ensures limit.Some? ==> |results| < limit.value
  {
  }

  predicate EmptyRange(spec: QuerySpec) {
    spec.afterSeq.Some? && spec.beforeSeq.Some? && spec.afterSeq.value > spec.beforeSeq.value
  }

  lemma NothingInRange(all: seq<LogEntry>, spec: QuerySpec, order: Order, cursor: Option<Cursor>)
    requires EmptyRange(spec) || EmptyRange(Effective(spec, order, cursor))
    ensures Full(all, spec, order, cursor) == []
  {
    SelectNone(all, Effective(spec, order, cursor));
  }

  /** Candidates whose event id is exactly the event's. */
  function WithId(es: seq<LogEntry>, event: Fields): seq<LogEntry> {
    if es == [] then []
    else (if Get(es[0].event, "event_id") == Some(Str(EventId(event))) then [es[0]] else []) + WithId(es[1..], event)
  }

  lemma WithIdStep(es: seq<LogEntry>, i: nat, event: Fields)
    requires i < |es|
    ensures WithId(es[i..], event)
            == (if Get(es[i].event, "event_id") == Some(Str(EventId(event))) then [es[i]]
                else []) + WithId(es[i + 1..], event)
  {
    assert es[i..][1..] == es[i + 1..];
  }

  lemma WithIdEnd(es: seq<LogEntry>, event: Fields)
    ensures WithId(es[|es|..], event) == []
  {
    assert es[|es|..] == [];
  }

  lemma {:induction false} LookupFindsMatches(es: seq<LogEntry>, event: Fields)
    ensures WithId(Select(es, LookupSpec(event)), event) == MatchesIn(es, event)
    decreases |es|
  {
    hide Matches;
    hide HasId;
    if es != [] {
      LookupFindsMatches(es[1..], event);
      PrefilterKeepsMatches(es[0], event);
      var tail := Select(es[1..], LookupSpec(event));
      assert ([es[0]] + tail)[1..] == tail;
      assert [] + tail == tail;
    }
  }
}
