/** The durable log as it lies on disk, and every write the owner makes to it.

    An operation is a fixed sequence of small durable writes; `Cut` names the last
    one that happened before the process stopped. */
module Storage {
  import opened Json
  import opened Records
  import opened Lines
  import opened TailRecovery
  import opened Completions

  const MAX_SEQ := 1_000_000_000_000
  const MAX_GENERATION := 1_000_000

  /** A segment file name: twelve-digit sequence bounds and a six-digit generation. */
  datatype SegmentName = SegmentName(first: int, last: int, generation: int)

  predicate Nameable(n: SegmentName) {
    0 <= n.first < MAX_SEQ && 0 <= n.last < MAX_SEQ && 0 <= n.generation < MAX_GENERATION
  }

  /** Order of the zero-padded file names. */
  predicate Precedes(a: SegmentName, b: SegmentName) {
    || a.first < b.first
    || (a.first == b.first && a.last < b.last)
    || (a.first == b.first && a.last == b.last && a.generation < b.generation)
  }

  datatype Segment = Segment(name: SegmentName, content: seq<byte>, sidecar: bool)

  datatype Manifest = Manifest(generation: int, rows: seq<SegmentName>, minSeq: int, latestSeq: int)

  /** `segments` is the segment directory listed in name order. */
  datatype Disk = Disk(active: Option<seq<byte>>, segments: seq<Segment>, manifest: Option<Manifest>)

  const EMPTY_DISK := Disk(None, [], None)

  function Names(segments: seq<Segment>): seq<SegmentName> {
    seq(|segments|, i requires 0 <= i < |segments| => segments[i].name)
  }

  /** Placing a file into the directory. */
  function Insert(segments: seq<Segment>, x: Segment): seq<Segment> {
    if segments == [] then [x]
    else if Precedes(x.name, segments[0].name) then [x] + segments
    else [segments[0]] + Insert(segments[1..], x)
  }

  // ------------------------------------------------------------------ repair

  function Max(a: int, b: int): int { if a < b then b else a }

  /** Files whose bounds can be listed in the manifest. */
  predicate Listable(n: SegmentName) {
    0 < n.first <= n.last
  }

  function ListedRows(segments: seq<Segment>): seq<SegmentName> {
    if segments == [] then []
    else (if Listable(segments[0].name) then [segments[0].name] else []) + ListedRows(segments[1..])
  }

  function LatestRow(rows: seq<SegmentName>): int {
    if rows == [] then 0 else Max(rows[0].last, LatestRow(rows[1..]))
  }

  function NextGeneration(rows: seq<SegmentName>, base: int): int {
    if rows == [] then base else Max(rows[0].generation + 1, NextGeneration(rows[1..], base))
  }

  function EarliestRow(rows: seq<SegmentName>): int {
    if rows == [] then 0
    else
      var later := EarliestRow(rows[1..]);
      if later == 0 || rows[0].first < later then rows[0].first else later
  }

  /** A segment scanned without its sidecar must hold exactly the range it is named for. */
  predicate BoundsDisagree(x: Segment) {
    var es := Entries(x.content);
    || (FirstNonZeroSeq(es) != 0 && FirstNonZeroSeq(es) != x.name.first)
    || (LastSeq(es) != 0 && LastSeq(es) != x.name.last)
  }

  function KnownRows(d: Disk): seq<SegmentName> {
    match d.manifest { case Some(m) => m.rows case None => [] }
  }

  predicate RowsPresent(d: Disk) {
    forall n :: n in KnownRows(d) ==> n in Names(d.segments)
  }

  /** Repair raises instead of rewriting the manifest. */
  predicate RepairRefuses(d: Disk) {
    || (!RowsPresent(d) && d.segments == [])
    || exists x :: x in d.segments && !x.sidecar && BoundsDisagree(x)
                   && !(RowsPresent(d) && x.name in KnownRows(d))
  }

  function Recover(d: Disk): Disk {
    match d.active
    case None => d
    case Some(s) => d.(active := Some(Recovered(s)))
  }

  /** Sidecars of the first `n` segments written. */
  function WithSidecars(d: Disk, n: nat): Disk {
    d.(segments := seq(|d.segments|, i requires 0 <= i < |d.segments| =>
                       if i < n then d.segments[i].(sidecar := true) else d.segments[i]))
  }

  function ActiveEntries(d: Disk): seq<LogEntry> {
    match d.active { case Some(s) => Entries(s) case None => [] }
  }

  /** Newest sequence of the active file by its bounds: zero if it starts with sequence zero. */
  function ActiveLast(d: Disk): int {
    if FirstSeq(ActiveEntries(d)) == 0 then 0 else LastSeq(ActiveEntries(d))
  }

  const NEW_MANIFEST := Manifest(0, [], 1, 0)

  function RepairedManifest(d: Disk): Option<Manifest> {
    var rows := ListedRows(d.segments);
    if d.manifest.None? && rows == [] then None
    else
      var base := if d.manifest.Some? then d.manifest.value else NEW_MANIFEST;
      var earliest := EarliestRow(rows);
      var activeFirst := FirstSeq(ActiveEntries(d));
      Some(Manifest(
        NextGeneration(rows, base.generation),
        rows,
        if earliest != 0 then earliest
        else if activeFirst != 0 then activeFirst
        else if base.minSeq != 0 then base.minSeq else 1,
        Max(base.latestSeq, Max(LatestRow(rows), ActiveLast(d)))))
  }

  /** The tail settled, every sidecar present and the manifest rebuilt from the files. */
  function Repaired(d: Disk): Disk {
    var r := Recover(d);
    WithSidecars(r, |r.segments|).(manifest := RepairedManifest(r))
  }

  // ---------------------------------------------------------------- rotation

  function BaseManifest(d: Disk): Manifest {
    if d.manifest.Some? then d.manifest.value else NEW_MANIFEST
  }

  predicate MustRotate(d: Disk, limit: nat) {
    && d.active.Some?
    && |d.active.value| > 0
    && |d.active.value| > limit
    && FirstSeq(ActiveEntries(d)) > 0
    && ActiveLast(d) > 0
  }

  function RotationTarget(d: Disk): SegmentName {
    SegmentName(FirstSeq(ActiveEntries(d)), LastSeq(ActiveEntries(d)), BaseManifest(d).generation)
  }

  predicate RotationRefuses(d: Disk) {
    !Nameable(RotationTarget(d)) || RotationTarget(d) in Names(d.segments)
  }

  function Renamed(d: Disk, sidecar: bool): Disk
    requires d.active.Some?
  {
    Disk(None, Insert(d.segments, Segment(RotationTarget(d), d.active.value, sidecar)), d.manifest)
  }

  function RotationManifest(d: Disk): Manifest {
    var base := BaseManifest(d);
    var target := RotationTarget(d);
    Manifest(base.generation + 1, base.rows + [target],
             if base.minSeq != 0 then base.minSeq else 1,
             Max(base.latestSeq, target.last))
  }

  function Rotated(d: Disk): Disk
    requires d.active.Some?
  {
    Renamed(d, true).(manifest := Some(RotationManifest(d)), active := Some([]))
  }

  // ------------------------------------------------------------------ append

  function ManifestLatest(d: Disk): int {
    match d.manifest { case Some(m) => m.latestSeq case None => 0 }
  }

  function LatestSeqForAppend(d: Disk): int {
    Max(ManifestLatest(d), LastSeq(ActiveEntries(d)))
  }

  /** The manifest high-water mark only ever moves up. */
  function Noted(d: Disk, latest: int): Disk {
    match d.manifest
    case None => d
    case Some(m) => if latest <= m.latestSeq then d else d.(manifest := Some(m.(latestSeq := latest)))
  }

  function Written(d: Disk, bytes: seq<byte>): Disk
    requires d.active.Some?
  {
    d.(active := Some(d.active.value + bytes))
  }

  // -------------------------------------------------------------- operations

  /** The last durable write before the process stopped. */
  datatype Cut =
    | Uncut
    | AtRecovery
    | AtSidecars(count: nat)
    | AtRepair
    | AtRename
    | AtSegmentSidecar
    | AtRotationManifest
    | AtRotation
    | AtBytes(count: nat)
    | AtWritten

  datatype Op =
    | Open(cut: Cut)
    | Append(event: Object, timestamp: int, cut: Cut)
    | AppendPair(recap: Object, detach: Object, timestamp: int, cut: Cut)
    | PairFails(recap: Object, detach: Object, timestamp: int, manifestReplaced: bool)

  predicate InRepair(cut: Cut) {
    cut.AtRecovery? || cut.AtSidecars? || cut.AtRepair?
  }

  predicate InRotation(cut: Cut) {
    cut.AtRename? || cut.AtSegmentSidecar? || cut.AtRotationManifest? || cut.AtRotation?
  }

  function RepairCut(d: Disk, cut: Cut): Disk {
    match cut
    case AtRecovery => Recover(d)
    case AtSidecars(n) => WithSidecars(Recover(d), n)
    case _ => Repaired(d)
  }

  function RotateCut(d: Disk, cut: Cut): Disk
    requires d.active.Some?
  {
    match cut
    case AtRename => Renamed(d, false)
    case AtSegmentSidecar => Renamed(d, true)
    case AtRotationManifest => Renamed(d, true).(manifest := Some(RotationManifest(d)))
    case _ => Rotated(d)
  }

  function NewEntries(d: Disk, events: seq<Object>, timestamp: int): seq<LogEntry> {
    seq(|events|, i requires 0 <= i < |events| =>
        LogEntry(LatestSeqForAppend(d) + 1 + i, timestamp, events[i]))
  }

  function WriteCut(d: Disk, es: seq<LogEntry>, cut: Cut): Disk
    requires d.active.Some?
  {
    var bytes := EncodeAll(es);
    match cut
    case AtBytes(k) => if k <= |bytes| then Written(d, bytes[..k]) else Written(d, bytes)
    case AtWritten => Written(d, bytes)
    case _ => Noted(Written(d, bytes), LatestSeqForAppend(d) + |es|)
  }

  /** The disk an append writes to: repaired, then rotated if the active file is full. */
  function Prepared(d: Disk, limit: nat): Disk {
    var r := Repaired(d);
    if MustRotate(r, limit) then Rotated(r) else r
  }

  /** Nothing stops the operation before its entries are written. */
  predicate ReachesWrite(d: Disk, limit: nat) {
    && d.active.Some?
    && !RepairRefuses(Recover(d))
    && !(MustRotate(Repaired(d), limit) && RotationRefuses(Repaired(d)))
  }

  /** One append under the mutex; `skip` when the events turn out to be logged already. */
  function AppendEvents(d: Disk, limit: nat, events: seq<Object>, timestamp: int, cut: Cut, skip: bool): Disk {
    if d.active.None? then d
    else if RepairRefuses(Recover(d)) then Recover(d)
    else if InRepair(cut) then RepairCut(d, cut)
    else if skip || !ReachesWrite(d, limit) then Repaired(d)
    else if InRotation(cut) then
      if MustRotate(Repaired(d), limit) then RotateCut(Repaired(d), cut) else Repaired(d)
    else
      var p := Prepared(d, limit);
      WriteCut(p, NewEntries(p, events, timestamp), cut)
  }

  function AllEntries(d: Disk): seq<LogEntry> {
    Covered(d.segments) + ActiveEntries(d)
  }

  function Covered(segments: seq<Segment>): seq<LogEntry> {
    if segments == [] then [] else Entries(segments[0].content) + Covered(segments[1..])
  }

  /** A completion whose event id is already stored is not written again. */
  predicate AlreadyLogged(d: Disk, event: Fields) {
    IsCompletion(event) && MatchesIn(AllEntries(d), event) != []
  }

  function Apply(d: Disk, limit: nat, op: Op): Disk {
    match op
    case Open(cut) =>
      var created := if d.active.None? then d.(active := Some([])) else d;
      if RepairRefuses(Recover(created)) then Recover(created) else RepairCut(created, cut)
    case Append(event, timestamp, cut) =>
      if IsCompletion(event) && !WellFormed(event) then d
      else AppendEvents(d, limit, [event], timestamp, cut, AlreadyLogged(Repaired(d), event))
    case AppendPair(recap, detach, timestamp, cut) =>
      AppendEvents(d, limit, [recap, detach], timestamp, cut, false)
    case PairFails(recap, detach, timestamp, manifestReplaced) =>
      if !ReachesWrite(d, limit) then AppendEvents(d, limit, [recap, detach], timestamp, Uncut, false)
      else
        // the written bytes are truncated away again; the manifest cannot be lowered
        var p := Prepared(d, limit);
        if manifestReplaced then Noted(p, LatestSeqForAppend(p) + 2) else p
  }

  function Run(d: Disk, limit: nat, ops: seq<Op>): Disk
    decreases |ops|
  {
    if ops == [] then d else Run(Apply(d, limit, ops[0]), limit, ops[1..])
  }
}
