/** The sequence-to-offset cache of the active file. */
module OffsetCache {
  import opened Json
  import opened Records
  import opened Lines

  /** Device and inode, size and modification time of one state of the active file. */
  datatype Identity = Identity(inode: int, size: nat, mtime: int)

  datatype Cache = Cache(offsets: map<int, int>, maxSeq: int, complete: bool, identity: Option<Identity>)

  const EMPTY_CACHE := Cache(map[], 0, false, None)

  /** A change of identity forgets everything. */
  function Refreshed(c: Cache, id: Option<Identity>): Cache {
    if c.identity == id then c else Cache(map[], 0, false, id)
  }

  function Updated(c: Cache, seqNo: int, offset: int, id: Option<Identity>): Cache {
    var r := Refreshed(c, id);
    r.(offsets := if seqNo !in r.offsets || offset < r.offsets[seqNo] then r.offsets[seqNo := offset] else r.offsets,
       maxSeq := if seqNo > r.maxSeq then seqNo else r.maxSeq)
  }

  predicate MarkTakesEffect(active: Option<Identity>, current: Option<Identity>, size: nat) {
    active.Some? && current == active && active.value.size == size
  }

  function Marked(c: Cache, active: Option<Identity>, current: Option<Identity>, size: nat): Cache {
    if MarkTakesEffect(active, current, size) then Refreshed(c, active).(complete := true) else c
  }

  /** Whether a lookup consults the cache at all. */
  predicate Consults(afterSeq: Option<int>) {
    afterSeq.Some? && afterSeq.value > 1
  }

  function StartOffset(c: Cache, afterSeq: Option<int>, id: Option<Identity>): int {
    if !Consults(afterSeq) then 0
    else
      var r, q := Refreshed(c, id), afterSeq.value;
      if q in r.offsets then r.offsets[q]
      else if r.complete && q > r.maxSeq then if id.Some? then id.value.size else 0
      else if r.maxSeq > 0 && q > r.maxSeq then if r.maxSeq in r.offsets then r.offsets[r.maxSeq] else 0
      else 0
  }

  class ActiveFileOffsetCache {
    var seqOffsets: map<int, int>
    var maxCachedSeq: int
    var complete: bool
    var fileIdentity: Option<Identity>

    function State(): Cache
      reads this
    {
      Cache(seqOffsets, maxCachedSeq, complete, fileIdentity)
    }

    constructor ()
      ensures State() == EMPTY_CACHE
    {
      seqOffsets, maxCachedSeq, complete, fileIdentity := map[], 0, false, None;
    }

    method Refresh(id: Option<Identity>)
      modifies this
      ensures State() == Refreshed(old(State()), id)
    {
      if fileIdentity == id {
        return;
      }
      seqOffsets, maxCachedSeq, complete := map[], 0, false;
      fileIdentity := id;
    }

    method StartingOffsetForSeq(afterSeq: Option<int>, id: Option<Identity>) returns (offset: int)
      modifies this
      ensures offset == StartOffset(old(State()), afterSeq, id)
      ensures State() == if Consults(afterSeq) then Refreshed(old(State()), id) else old(State())
    {
      if afterSeq.None? || afterSeq.value <= 1 {
        return 0;
      }
      Refresh(id);
      var q := afterSeq.value;
      if q in seqOffsets {
        return seqOffsets[q];
      }
      if complete && q > maxCachedSeq {
        return if id.Some? then id.value.size else 0;
      }
      if maxCachedSeq > 0 && q > maxCachedSeq {
        return if maxCachedSeq in seqOffsets then seqOffsets[maxCachedSeq] else 0;
      }
      return 0;
    }

    method Update(seqNo: int, offset: int, id: Option<Identity>)
      modifies this
      ensures State() == Updated(old(State()), seqNo, offset, id)
    {
      Refresh(id);
      if seqNo !in seqOffsets || offset < seqOffsets[seqNo] {
        seqOffsets := seqOffsets[seqNo := offset];
      }
      if seqNo > maxCachedSeq {
        maxCachedSeq := seqNo;
      }
    }

    method MarkComplete(active: Option<Identity>, current: Option<Identity>, size: nat)
      modifies this
      ensures State() == Marked(old(State()), active, current, size)
    {
      if active.None? || current.None? {
        return;
      }
      if current != active || current.value.size != size {
        return;
      }
      Refresh(active);
      complete := true;
    }

    method Clear()
      modifies this
      ensures State() == EMPTY_CACHE
    {
      seqOffsets, maxCachedSeq, complete, fileIdentity := map[], 0, false, None;
    }
  }

  // ------------------------------------------------- what the cache may claim

  /** The bytes behind each identity a reader has seen. */
  type Files = map<Identity, seq<byte>>

  predicate FilesOk(files: Files) {
    forall id :: id in files ==> |files[id]| == id.size && Increasing(Entries(files[id]))
  }

  /** An entry with this sequence begins at this offset. */
  predicate EntryAt(s: seq<byte>, seqNo: int, offset: int) {
    && 0 <= offset < |s|
    && LineStart(s, offset)
    && var rest := s[offset..];
       match ParseEntry(rest[..LineLength(rest)])
       case Some(e) => e.seqNo == seqNo
       case None => false
  }

  /** The highest sequence a complete cache answers for; a lookup never asks below two. */
  function Reach(c: Cache): int {
    if c.maxSeq > 1 then c.maxSeq else 1
  }

  predicate Covers(c: Cache, s: seq<byte>) {
    forall e :: e in Entries(s) ==> e.seqNo <= Reach(c)
  }

  /** Every noted offset is where that entry begins. */
  predicate NotesTrue(c: Cache, s: seq<byte>) {
    && (forall q :: q in c.offsets ==> EntryAt(s, q, c.offsets[q]) && q <= c.maxSeq)
    && (c.maxSeq == 0 || (c.maxSeq > 0 && c.maxSeq in c.offsets))
  }

  /** What honest readers keep, completion reports aside. */
  predicate Faithful(c: Cache, files: Files) {
    match c.identity
    case None => c.offsets == map[] && c.maxSeq == 0 && !c.complete
    case Some(id) => id in files && NotesTrue(c, files[id])
  }

  predicate CacheSound(c: Cache, files: Files) {
    Faithful(c, files) && (c.complete ==> Covers(c, files[c.identity.value]))
  }

  lemma EmptyIsSound(files: Files)
    ensures CacheSound(EMPTY_CACHE, files)
  {
  }

  lemma RefreshSound(c: Cache, files: Files, id: Identity)
    requires CacheSound(c, files) && id in files
    ensures CacheSound(Refreshed(c, Some(id)), files)
  {
  }

  lemma UpdateSound(c: Cache, files: Files, id: Identity, seqNo: int, offset: int)
    requires CacheSound(c, files) && id in files && EntryAt(files[id], seqNo, offset)
    ensures CacheSound(Updated(c, seqNo, offset, Some(id)), files)
    ensures Updated(c, seqNo, offset, Some(id)).maxSeq >= seqNo
  {
    hide EntryAt;
    hide Entries;
    RefreshSound(c, files, id);
  }

  lemma EntriesBefore(s: seq<byte>, seqNo: int, offset: int)
    requires Increasing(Entries(s)) && EntryAt(s, seqNo, offset)
    ensures Entries(s) == Entries(s[..offset]) + Entries(s[offset..])
    ensures forall e :: e in Entries(s[..offset]) ==> e.seqNo < seqNo
  {
    hide ParseEntry;
    assert s == s[..offset] + s[offset..];
    EntriesConcat(s[..offset], s[offset..]);
    var a, b := Entries(s[..offset]), Entries(s[offset..]);
    assert b != [] && b[0].seqNo == seqNo;
    forall e | e in a
      ensures e.seqNo < seqNo
    {
      var i :| 0 <= i < |a| && a[i] == e;
      assert Entries(s)[i] == e && Entries(s)[|a|] == b[0];
    }
  }

  /** The start offset never skips an entry: it is a line start or the file's end, and
      everything before it is older than what is asked for and already covered. */
  lemma StartNeverSkips(c: Cache, files: Files, id: Identity, afterSeq: Option<int>)
    requires FilesOk(files) && CacheSound(c, files) && id in files
    ensures var start := StartOffset(c, afterSeq, Some(id));
            var s := files[id];
            && 0 <= start <= |s|
            && (start == |s| || LineStart(s, start))
            && Entries(s) == (if start == |s| then Entries(s) else Entries(s[..start]) + Entries(s[start..]))
            && (forall e :: e in Entries(s[..start]) ==>
                  e.seqNo <= Reach(Refreshed(c, Some(id))) && afterSeq.Some? && e.seqNo < afterSeq.value)
  {
    hide EntryAt;
    hide Entries;
    hide LineStart;
    var s, r := files[id], Refreshed(c, Some(id));
    RefreshSound(c, files, id);
    var start := StartOffset(c, afterSeq, Some(id));
    if start == 0 {
      NothingBeforeZero(s);
    } else if afterSeq.value in r.offsets || !(r.complete && afterSeq.value > r.maxSeq) {
      var q := if afterSeq.value in r.offsets then afterSeq.value else r.maxSeq;
      assert q in r.offsets && start == r.offsets[q];
      EntryIsLineStart(s, q, start);
      EntriesBefore(s, q, start);
    } else {
      assert start == |s| && s[..start] == s;
    }
  }

  lemma NothingBeforeZero(s: seq<byte>)
    ensures LineStart(s, 0) && Entries(s[..0]) == []
    ensures Entries(s) == Entries(s[..0]) + Entries(s[0..])
  {
    assert s[0..] == s;
  }

  lemma EntryIsLineStart(s: seq<byte>, q: int, offset: int)
    requires EntryAt(s, q, offset)
    ensures 0 <= offset < |s| && LineStart(s, offset)
  {
  }

  /** A lookup through the cache starts off a line boundary, or after an entry it asked for. */
  ghost predicate Skips(c: Cache, files: Files, id: Identity, afterSeq: Option<int>)
    requires id in files
  {
    var start, s := StartOffset(c, afterSeq, Some(id)), files[id];
    || !(0 <= start <= |s|)
    || !(start == |s| || LineStart(s, start))
    || exists e :: e in Entries(s[..start]) && (afterSeq.None? || e.seqNo >= afterSeq.value)
  }

  ghost predicate NeverSkips(c: Cache, files: Files) {
    forall id, afterSeq :: id in files ==> !Skips(c, files, id, afterSeq)
  }

  /** With honest notes, no lookup skips an entry if and only if the cache is not marked
      complete over an entry beyond its reach. */
  lemma NeverSkipsIff(c: Cache, files: Files)
    requires FilesOk(files) && Faithful(c, files)
    ensures NeverSkips(c, files) <==> CacheSound(c, files)
  {
    hide Entries;
    hide EntryAt;
    hide LineStart;
    hide StartOffset;
    if CacheSound(c, files) {
      forall id, afterSeq | id in files
        ensures !Skips(c, files, id, afterSeq)
      {
        StartNeverSkips(c, files, id, afterSeq);
      }
    } else {
      var id := c.identity.value;
      var e :| e in Entries(files[id]) && e.seqNo > Reach(c);
      CompleteStartsAtEnd(c, id, e.seqNo);
      assert files[id][..|files[id]|] == files[id];
      assert Skips(c, files, id, Some(e.seqNo));
    }
  }

  lemma CompleteStartsAtEnd(c: Cache, id: Identity, q: int)
    requires c.identity == Some(id) && c.complete && q > Reach(c) && forall p :: p in c.offsets ==> p <= c.maxSeq
    ensures StartOffset(c, Some(q), Some(id)) == id.size
  {
  }

  // --------------------------------------------------------- interleaved runs

  /** One locked step on the shared cache, by any reader. */
  datatype Action =
    | Lookup(afterSeq: Option<int>, id: Identity)
    | Note(seqNo: int, offset: int, id: Identity)
    | Finish(id: Identity, current: Option<Identity>, size: nat)
    | Forget

  function Do(c: Cache, a: Action): Cache {
    match a
    case Lookup(afterSeq, id) => if Consults(afterSeq) then Refreshed(c, Some(id)) else c
    case Note(seqNo, offset, id) => Updated(c, seqNo, offset, Some(id))
    case Finish(id, current, size) => Marked(c, Some(id), current, size)
    case Forget => EMPTY_CACHE
  }

  /** The cache after the first `n` actions on a fresh one. */
  function Reached(actions: seq<Action>, n: nat): Cache
    requires n <= |actions|
  {
    if n == 0 then EMPTY_CACHE else Do(Reached(actions, n - 1), actions[n - 1])
  }

  /** Offset and identity belong to the same file state. */
  predicate Honest(a: Action, files: Files) {
    match a
    case Lookup(_, id) => id in files
    case Note(seqNo, offset, id) => id in files && EntryAt(files[id], seqNo, offset)
    case Finish(id, _, _) => id in files
    case Forget => true
  }

  predicate AllHonest(actions: seq<Action>, files: Files) {
    forall a :: a in actions ==> Honest(a, files)
  }

  lemma StepFaithful(c: Cache, a: Action, files: Files)
    requires Faithful(c, files) && Honest(a, files)
    ensures Faithful(Do(c, a), files)
  {
    hide EntryAt;
    hide Entries;
  }

  lemma {:induction false} RunFaithful(actions: seq<Action>, files: Files, n: nat)
    requires AllHonest(actions, files) && n <= |actions|
    ensures Faithful(Reached(actions, n), files)
  {
    hide Do;
    hide Honest;
    hide Faithful;
    if n == 0 {
      EmptyIsFaithful(files);
    } else {
      RunFaithful(actions, files, n - 1);
      assert Honest(actions[n - 1], files);
      StepFaithful(Reached(actions, n - 1), actions[n - 1], files);
    }
  }

  lemma EmptyIsFaithful(files: Files)
    ensures Faithful(EMPTY_CACHE, files)
  {
  }

  function Newest(files: Files, id: Identity): int
    requires id in files
  {
    LastSeq(Entries(files[id]))
  }

  /** A completion report that the cache acts on. */
  predicate Reports(a: Action) {
    a.Finish? && MarkTakesEffect(Some(a.id), a.current, a.size)
  }

  /** The action makes the cache forget this file state. */
  predicate Disturbs(a: Action, id: Identity) {
    match a
    case Lookup(afterSeq, i) => Consults(afterSeq) && i != id
    case Note(_, _, i) => i != id
    case Finish(i, _, _) => Reports(a) && i != id
    case Forget => true
  }

  /** Before the n-th action some reader noted the file's newest entry, and no action since
      then belonged to another file state or cleared the cache. */
  predicate Carried(actions: seq<Action>, n: nat, id: Identity, newest: int)
    requires n <= |actions|
  {
    exists i :: 0 <= i < n && actions[i].Note? && actions[i].id == id && actions[i].seqNo == newest
                && forall k :: i < k < n ==> !Disturbs(actions[k], id)
  }

  lemma CarriedStep(actions: seq<Action>, n: nat, id: Identity, newest: int)
    requires n < |actions|
    ensures Carried(actions, n + 1, id, newest) <==>
              || (actions[n].Note? && actions[n].id == id && actions[n].seqNo == newest)
              || (Carried(actions, n, id, newest) && !Disturbs(actions[n], id))
  {
    hide Disturbs;
    if Carried(actions, n, id, newest) && !Disturbs(actions[n], id) {
      var i :| 0 <= i < n && actions[i].Note? && actions[i].id == id && actions[i].seqNo == newest
               && forall k :: i < k < n ==> !Disturbs(actions[k], id);
      assert forall k :: i < k < n + 1 ==> !Disturbs(actions[k], id);
    }
  }

  predicate HoldsNewest(c: Cache, id: Identity, newest: int) {
    c.identity == Some(id) && c.maxSeq >= newest
  }

  lemma HoldsStep(c: Cache, a: Action, id: Identity, newest: int)
    requires newest > 0 && (a.Note? && a.id == id ==> a.seqNo <= newest)
    ensures HoldsNewest(Do(c, a), id, newest) <==>
              || (a.Note? && a.id == id && a.seqNo == newest)
              || (HoldsNewest(c, id, newest) && !Disturbs(a, id))
  {
  }

  lemma NotedIsOld(s: seq<byte>, seqNo: int, offset: int)
    requires Increasing(Entries(s)) && EntryAt(s, seqNo, offset)
    ensures seqNo <= LastSeq(Entries(s))
  {
    hide ParseEntry;
    assert s == s[..offset] + s[offset..];
    EntriesConcat(s[..offset], s[offset..]);
    var a, b := Entries(s[..offset]), Entries(s[offset..]);
    assert b != [] && b[0].seqNo == seqNo;
    assert Entries(s)[|a|] == b[0];
  }

  /** The cache holds a file's newest entry exactly when its last note was not disturbed. */
  lemma {:induction false} CarriedIff(actions: seq<Action>, files: Files, n: nat, id: Identity)
    requires FilesOk(files) && AllHonest(actions, files) && n <= |actions| && id in files && Newest(files, id) > 0
    ensures HoldsNewest(Reached(actions, n), id, Newest(files, id)) <==> Carried(actions, n, id, Newest(files, id))
  {
    hide Do;
    hide Carried;
    hide EntryAt;
    hide Entries;
    hide Disturbs;
    if n == 0 {
      NothingCarried(actions, id, Newest(files, id));
    } else {
      var a := actions[n - 1];
      CarriedIff(actions, files, n - 1, id);
      CarriedStep(actions, n - 1, id, Newest(files, id));
      assert Honest(a, files);
      if a.Note? && a.id == id {
        NotedIsOld(files[id], a.seqNo, a.offset);
      }
      HoldsStep(Reached(actions, n - 1), a, id, Newest(files, id));
    }
  }

  lemma NothingCarried(actions: seq<Action>, id: Identity, newest: int)
    ensures !Carried(actions, 0, id, newest)
  {
  }

  lemma LastCovers(s: seq<byte>, m: int)
    requires Increasing(Entries(s)) && m >= 0
    ensures (forall e :: e in Entries(s) ==> e.seqNo <= m) <==> LastSeq(Entries(s)) <= m
  {
    hide Entries;
    var es := Entries(s);
    if es != [] {
      assert es[|es| - 1] in es;
      forall e | e in es
        ensures e.seqNo <= LastSeq(es)
      {
        var i :| 0 <= i < |es| && es[i] == e;
      }
    }
  }

  /** From a sound cache, a step is unsound exactly when it reports a file complete whose
      newest entry the cache does not hold. */
  lemma StepSoundIff(c: Cache, a: Action, files: Files)
    requires FilesOk(files) && CacheSound(c, files) && Honest(a, files)
    ensures CacheSound(Do(c, a), files) <==>
              (Reports(a) ==> Newest(files, a.id) <= 1 || HoldsNewest(c, a.id, Newest(files, a.id)))
  {
    hide Entries;
    hide EntryAt;
    StepFaithful(c, a, files);
    if a.Finish? {
      LastCovers(files[a.id], Reach(Refreshed(c, Some(a.id))));
    } else if a.Note? {
      UpdateSound(c, files, a.id, a.seqNo, a.offset);
    } else if a.Lookup? {
      RefreshSound(c, files, a.id);
    }
  }

  /** The report, if the cache acts on it, comes while its file's newest entry, noted before,
      is still undisturbed; a file whose newest sequence is at most 1 may be reported freely. */
  predicate ReportCarried(actions: seq<Action>, files: Files, j: nat)
    requires j < |actions| && Honest(actions[j], files)
  {
    Reports(actions[j]) ==>
      || Newest(files, actions[j].id) <= 1
      || Carried(actions, j, actions[j].id, Newest(files, actions[j].id))
  }

  predicate ReportsAreCarried(actions: seq<Action>, files: Files, n: nat)
    requires AllHonest(actions, files) && n <= |actions|
  {
    forall j :: 0 <= j < n ==> assert actions[j] in actions; ReportCarried(actions, files, j)
  }

  ghost predicate SoundUntil(actions: seq<Action>, files: Files, n: nat)
    requires n <= |actions|
  {
    forall m :: 0 <= m <= n ==> CacheSound(Reached(actions, m), files)
  }

  lemma {:induction false} SoundThroughoutIff(actions: seq<Action>, files: Files, n: nat)
    requires FilesOk(files) && AllHonest(actions, files) && n <= |actions|
    ensures SoundUntil(actions, files, n) <==> ReportsAreCarried(actions, files, n)
    decreases n
  {
    hide CacheSound;
    hide Honest;
    hide Do;
    hide FilesOk;
    hide ReportCarried;
    if n == 0 {
      EmptyIsSound(files);
    } else {
      SoundThroughoutIff(actions, files, n - 1);
      assert SoundUntil(actions, files, n) <==>
               SoundUntil(actions, files, n - 1) && CacheSound(Reached(actions, n), files);
      assert actions[n - 1] in actions;
      assert ReportsAreCarried(actions, files, n) <==>
               ReportsAreCarried(actions, files, n - 1) && ReportCarried(actions, files, n - 1);
      if SoundUntil(actions, files, n - 1) {
        ReportIff(actions, files, n - 1);
      }
    }
  }

  /** From a sound cache the next action keeps it sound exactly when its report is carried. */
  lemma ReportIff(actions: seq<Action>, files: Files, n: nat)
    requires FilesOk(files) && AllHonest(actions, files) && n < |actions| && CacheSound(Reached(actions, n), files)
    ensures Honest(actions[n], files)
    ensures CacheSound(Reached(actions, n + 1), files) <==> ReportCarried(actions, files, n)
  {
    hide Carried;
    hide Do;
    hide CacheSound;
    hide HoldsNewest;
    hide Entries;
    hide FilesOk;
    hide EntryAt;
    assert Honest(actions[n], files);
    StepSoundIff(Reached(actions, n), actions[n], files);
    if Reports(actions[n]) && Newest(files, actions[n].id) > 1 {
      CarriedIff(actions, files, n, actions[n].id);
    }
  }

  /** At no moment of the run would a lookup, for any file state, skip an entry it asked for. */
  ghost predicate RunNeverSkips(actions: seq<Action>, files: Files) {
    forall n :: 0 <= n <= |actions| ==> NeverSkips(Reached(actions, n), files)
  }

  lemma MomentIff(actions: seq<Action>, files: Files, n: nat)
    requires FilesOk(files) && AllHonest(actions, files) && n <= |actions|
    ensures NeverSkips(Reached(actions, n), files) <==> CacheSound(Reached(actions, n), files)
  {
    hide CacheSound;
    hide NeverSkips;
    hide Reached;
    RunFaithful(actions, files, n);
    NeverSkipsIff(Reached(actions, n), files);
  }

  /** Over every interleaving of readers on a fresh cache: no lookup, at any moment and for
      any file state, skips an entry it asked for, if and only if each completion report of a
      file with entries past 1 follows a note of the file's newest entry with no action of
      another file state and no clearing in between. */
  lemma RunsNeverSkipIff(actions: seq<Action>, files: Files)
    requires FilesOk(files) && AllHonest(actions, files)
    ensures RunNeverSkips(actions, files) <==> ReportsAreCarried(actions, files, |actions|)
  {
    hide CacheSound;
    hide NeverSkips;
    hide Honest;
    hide ReportsAreCarried;
    hide FilesOk;
    hide Reached;
    SoundThroughoutIff(actions, files, |actions|);
    if SoundUntil(actions, files, |actions|) {
      forall n | 0 <= n <= |actions|
        ensures NeverSkips(Reached(actions, n), files)
      {
        MomentIff(actions, files, n);
      }
    }
    if RunNeverSkips(actions, files) {
      forall n | 0 <= n <= |actions|
        ensures CacheSound(Reached(actions, n), files)
      {
        MomentIff(actions, files, n);
      }
    }
  }

  /** Two readers of different file states can make the cache skip the whole file: a
      slower reader of an older state refreshes the cache between the newer scan's last
      note and its completion report. */
  lemma DisturbedScanSkipsEntries(files: Files, older: Identity, newer: Identity, e: LogEntry)
    requires FilesOk(files) && older in files && newer in files && older != newer
    requires files[newer] == EncodeAll([e]) && e.seqNo == 2
    ensures var actions := [Note(2, 0, newer), Lookup(Some(2), older), Finish(newer, Some(newer), newer.size)];
            && AllHonest(actions, files)
            && StartOffset(Reached(actions, 3), Some(2), Some(newer)) == |files[newer]|
            && Entries(files[newer]) == [e]
            && Skips(Reached(actions, 3), files, newer, Some(2))
  {
    var s := files[newer];
    EntriesOfEncodeAll([e]);
    FirstRecordAt(e);
    var actions := [Note(2, 0, newer), Lookup(Some(2), older), Finish(newer, Some(newer), newer.size)];
    hide EntryAt;
    hide Entries;
    hide LineStart;
    var b := Reached(actions, 2);
    assert Reached(actions, 0) == EMPTY_CACHE && Reached(actions, 1) == Do(EMPTY_CACHE, actions[0]);
    assert b == Do(Do(EMPTY_CACHE, actions[0]), actions[1]);
    assert b.identity == Some(older);
    assert Reached(actions, 3) == Do(b, actions[2]);
    assert s[..|s|] == s;
    assert e in Entries(s[..|s|]);
  }

  lemma FirstRecordAt(e: LogEntry)
    ensures EntryAt(EncodeAll([e]), e.seqNo, 0)
  {
    hide ParseEntry;
    EncodedEntryIsOneLine(e);
    EntriesOfEncodeAll([e]);
    var s := EncodeAll([e]);
    assert [e][1..] == [];
    assert s == EncodeEntry(e) + [] == EncodeEntry(e);
    NoNewline(Envelope(e));
    LineLengthUnique(s, |s|);
    assert s[0..] == s && s[..|s|] == s;
    EntryReads(e);
  }

  lemma EntryReads(e: LogEntry)
    ensures ParseEntry(EncodeEntry(e)) == Some(e)
  {
    EntryRoundTrip(e);
  }
}
