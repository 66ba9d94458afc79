/** Cursor paging over a log with rising sequence numbers. */
module Paging {
  import opened Json
  import opened Records
  import opened Lines
  import opened Query

  datatype Order = Asc | Desc

  datatype Cursor = Cursor(afterSeq: int, direction: Order)

  datatype Answer = Invalid | Answer(entries: seq<LogEntry>, next: Option<Cursor>)

  predicate ValidArguments(order: Order, limit: Option<int>, cursor: Option<Cursor>) {
    (limit.Some? ==> limit.value > 0) && (cursor.Some? ==> cursor.value.direction == order)
  }

  /** The cursor narrows the sequence bounds of the specification. */
  function Effective(spec: QuerySpec, order: Order, cursor: Option<Cursor>): QuerySpec {
    match cursor
    case None => spec
    case Some(c) =>
      if order.Asc? then
        spec.(afterSeq := Some(if spec.afterSeq.Some? && spec.afterSeq.value > c.afterSeq + 1
                               then spec.afterSeq.value else c.afterSeq + 1))
      else
        spec.(beforeSeq := Some(if spec.beforeSeq.Some? && spec.beforeSeq.value < c.afterSeq - 1
                                then spec.beforeSeq.value else c.afterSeq - 1))
  }

  function Ordered(es: seq<LogEntry>, order: Order): seq<LogEntry> {
    if order.Asc? then es else Reversed(es)
  }

  /** The unpaged answer from a cursor on. */
  function Full(all: seq<LogEntry>, spec: QuerySpec, order: Order, cursor: Option<Cursor>): seq<LogEntry> {
    Ordered(Select(all, Effective(spec, order, cursor)), order)
  }

  function FetchLimit(limit: Option<int>): Option<nat>
    requires limit.Some? ==> limit.value > 0
  {
    match limit { case None => None case Some(n) => Some(n + 1) }
  }

  /** One extra entry is fetched to learn whether a further page exists. */
  function CutPage(fetched: seq<LogEntry>, order: Order, limit: Option<int>): Answer
    requires limit.Some? ==> limit.value > 0
  {
    if limit.Some? && |fetched| > limit.value then
      Answer(fetched[..limit.value], Some(Cursor(fetched[limit.value - 1].seqNo, order)))
    else Answer(fetched, None)
  }

  /** What every query must answer, from the plain filter of the whole log. */
  function PageOf(all: seq<LogEntry>, spec: QuerySpec, order: Order, limit: Option<int>,
                  cursor: Option<Cursor>): Answer {
    if !ValidArguments(order, limit, cursor) then Invalid
    else CutPage(Take(FetchLimit(limit), Full(all, spec, order, cursor)), order, limit)
  }

  // ------------------------------------------------- following the cursors

  predicate Beyond(e: LogEntry, c: Cursor) {
    if c.direction.Asc? then e.seqNo > c.afterSeq else e.seqNo < c.afterSeq
  }

  function Past(es: seq<LogEntry>, c: Cursor): seq<LogEntry> {
    if es == [] then [] else (if Beyond(es[0], c) then [es[0]] else []) + Past(es[1..], c)
  }

  lemma NarrowedWants(e: LogEntry, spec: QuerySpec, order: Order, cursor: Option<Cursor>, next: Cursor)
    requires next.direction == order
    requires cursor.Some? ==> cursor.value.direction == order
    requires cursor.Some? ==> if order.Asc? then next.afterSeq > cursor.value.afterSeq
                              else next.afterSeq < cursor.value.afterSeq
    ensures Wanted(e, Effective(spec, order, Some(next))) <==>
              Wanted(e, Effective(spec, order, cursor)) && Beyond(e, next)
  {
    assert Matches(e, Effective(spec, order, Some(next))) == Matches(e, spec);
    assert Matches(e, Effective(spec, order, cursor)) == Matches(e, spec);
  }

  lemma {:induction false} NarrowedSelect(all: seq<LogEntry>, spec: QuerySpec, order: Order, cursor: Option<Cursor>,
                                          next: Cursor)
    requires next.direction == order
    requires cursor.Some? ==> cursor.value.direction == order
    requires cursor.Some? ==> if order.Asc? then next.afterSeq > cursor.value.afterSeq
                              else next.afterSeq < cursor.value.afterSeq
    ensures Select(all, Effective(spec, order, Some(next))) == Past(Select(all, Effective(spec, order, cursor)), next)
    decreases |all|
  {
    hide Wanted;
    hide Effective;
    hide Beyond;
    if all != [] {
      NarrowedWants(all[0], spec, order, cursor, next);
      NarrowedSelect(all[1..], spec, order, cursor, next);
      var tail := Select(all[1..], Effective(spec, order, cursor));
      assert ([all[0]] + tail)[1..] == tail;
      assert [] + tail == tail;
    }
  }

  lemma {:induction false} PastConcat(a: seq<LogEntry>, b: seq<LogEntry>, c: Cursor)
    ensures Past(a + b, c) == Past(a, c) + Past(b, c)
    decreases |a|
  {
    if a == [] {
      assert a + b == b;
    } else {
      assert (a + b)[1..] == a[1..] + b;
      PastConcat(a[1..], b, c);
    }
  }

  lemma {:induction false} PastAll(es: seq<LogEntry>, c: Cursor)
    ensures (forall e :: e in es ==> Beyond(e, c)) ==> Past(es, c) == es
    ensures (forall e :: e in es ==> !Beyond(e, c)) ==> Past(es, c) == []
    decreases |es|
  {
    hide Beyond;
    if es != [] {
      PastAll(es[1..], c);
    }
  }

  lemma PastHalves(a: seq<LogEntry>, b: seq<LogEntry>, c: Cursor)
    ensures (forall e :: e in a ==> !Beyond(e, c)) && (forall e :: e in b ==> Beyond(e, c)) ==> Past(a + b, c) == b
    ensures (forall e :: e in a ==> Beyond(e, c)) && (forall e :: e in b ==> !Beyond(e, c)) ==> Past(a + b, c) == a
  {
    hide Beyond;
    hide Past;
    PastConcat(a, b, c);
    PastAll(a, c);
    PastAll(b, c);
  }

  /** Past the n-th entry lies exactly what follows it. */
  lemma PastSplits(es: seq<LogEntry>, n: nat)
    requires Increasing(es) && 0 < n <= |es|
    ensures Past(es, Cursor(es[n - 1].seqNo, Asc)) == es[n..]
  {
    hide Past;
    assert es == es[..n] + es[n..];
    PastHalves(es[..n], es[n..], Cursor(es[n - 1].seqNo, Asc));
  }

  lemma PastSplitsDown(es: seq<LogEntry>, k: nat)
    requires Increasing(es) && k < |es|
    ensures Past(es, Cursor(es[k].seqNo, Desc)) == es[..k]
  {
    hide Past;
    assert es == es[..k] + es[k..];
    PastHalves(es[..k], es[k..], Cursor(es[k].seqNo, Desc));
  }

  lemma ReversedDrop<T>(s: seq<T>, n: nat)
    requires n <= |s|
    ensures |Reversed(s)| == |s| && Reversed(s)[n..] == Reversed(s[..|s| - n])
  {
    ReversedMembers(s);
    ReversedMembers(s[..|s| - n]);
  }

  lemma {:induction false} SelectIncreases(all: seq<LogEntry>, spec: QuerySpec)
    requires Increasing(all)
    ensures Increasing(Select(all, spec))
    ensures forall e :: e in Select(all, spec) ==> e in all && Wanted(e, spec)
    decreases |all|
  {
    hide Wanted;
    if all != [] {
      assert all == [all[0]] + all[1..];
      IncreasingTail(all[0], all[1..]);
      SelectIncreases(all[1..], spec);
    }
  }

  /** Following a page's cursor leaves exactly the rest of the unpaged answer. */
  lemma NextPageContinues(all: seq<LogEntry>, spec: QuerySpec, order: Order, limit: int, cursor: Option<Cursor>)
    requires Increasing(all) && ValidArguments(order, Some(limit), cursor)
    ensures PageOf(all, spec, order, Some(limit), cursor).Answer?
    ensures var full := Full(all, spec, order, cursor);
            var page := PageOf(all, spec, order, Some(limit), cursor);
            if page.next.None? then page.entries == full
            else
              && |full| > limit
              && page.entries == full[..limit]
              && page.next.value.direction == order
              && Full(all, spec, order, page.next) == full[limit..]
  {
    hide Wanted;
    hide Effective;
    hide Select;
    hide Reversed;
    hide Increasing;
    hide Past;
    var es := Select(all, Effective(spec, order, cursor));
    var full := Full(all, spec, order, cursor);
    SelectIncreases(all, Effective(spec, order, cursor));
    ReversedMembers(es);
    TakeMore(full, limit);
    if |full| > limit {
      var next := Cursor(full[limit - 1].seqNo, order);
      assert full[limit - 1] in full;
      CursorAdvances(full[limit - 1], spec, order, cursor);
      NarrowedSelect(all, spec, order, cursor, next);
      RestOfPage(es, order, limit);
    }
  }

  lemma TakeMore(full: seq<LogEntry>, limit: int)
    requires limit > 0
    ensures var fetched := Take(FetchLimit(Some(limit)), full);
            && (|fetched| > limit <==> |full| > limit)
            && (|full| <= limit ==> fetched == full)
            && (|full| > limit ==> fetched[..limit] == full[..limit] && fetched[limit - 1] == full[limit - 1])
  {
  }

  lemma RestOfPage(es: seq<LogEntry>, order: Order, limit: int)
    requires Increasing(es) && 0 < limit < |es|
    ensures |Ordered(es, order)| == |es|
    ensures Ordered(Past(es, Cursor(Ordered(es, order)[limit - 1].seqNo, order)), order) == Ordered(es, order)[limit..]
  {
    hide Past;
    hide Reversed;
    hide Increasing;
    if order.Asc? {
      PastSplits(es, limit);
    } else {
      ReversedMembers(es);
      PastSplitsDown(es, |es| - limit);
      ReversedDrop(es, limit);
    }
  }

  lemma CursorAdvances(e: LogEntry, spec: QuerySpec, order: Order, cursor: Option<Cursor>)
    requires Wanted(e, Effective(spec, order, cursor))
    ensures cursor.Some? ==> if order.Asc? then e.seqNo > cursor.value.afterSeq else e.seqNo < cursor.value.afterSeq
  {
  }

  /** All pages from a cursor on, one after the other, until no cursor is returned. */
  function AllPages(all: seq<LogEntry>, spec: QuerySpec, order: Order, limit: int,
                    cursor: Option<Cursor>): (r: seq<LogEntry>)
    requires Increasing(all) && ValidArguments(order, Some(limit), cursor)
    ensures r == Full(all, spec, order, cursor)
    decreases |Full(all, spec, order, cursor)|
  {
    hide Effective;
    hide Wanted;
    NextPageContinues(all, spec, order, limit, cursor);
    var page := PageOf(all, spec, order, Some(limit), cursor);
    if page.next.None? then page.entries
    else page.entries + AllPages(all, spec, order, limit, page.next)
  }

  // ------------------------------------------------- the strict reader's page

  predicate Visible(e: LogEntry, excluded: set<int>, hidden: LogEntry -> bool) {
    e.seqNo !in excluded && !hidden(e)
  }

  function VisibleOf(es: seq<LogEntry>, excluded: set<int>, hidden: LogEntry -> bool): seq<LogEntry> {
    if es == [] then []
    else (if Visible(es[0], excluded, hidden) then [es[0]] else []) + VisibleOf(es[1..], excluded, hidden)
  }

  lemma {:induction false} VisibleMembers(es: seq<LogEntry>, excluded: set<int>, hidden: LogEntry -> bool)
    requires Increasing(es)
    ensures Increasing(VisibleOf(es, excluded, hidden))
    ensures forall e :: e in VisibleOf(es, excluded, hidden) <==> e in es && Visible(e, excluded, hidden)
    ensures (forall e :: e in es ==> Visible(e, excluded, hidden)) ==> VisibleOf(es, excluded, hidden) == es
    decreases |es|
  {
    hide Visible;
    if es != [] {
      assert es == [es[0]] + es[1..];
      IncreasingTail(es[0], es[1..]);
      VisibleMembers(es[1..], excluded, hidden);
    }
  }

  /** Paging through the strict reader concatenates to its unpaged answer, and where nothing
      is hidden the strict reader's page is the indexed reader's page. */
  lemma StrictPagesAgree(all: seq<LogEntry>, excluded: set<int>, hidden: LogEntry -> bool, spec: QuerySpec,
                         order: Order,
                         limit: int, cursor: Option<Cursor>)
    requires Increasing(all) && ValidArguments(order, Some(limit), cursor)
    ensures var seen := VisibleOf(all, excluded, hidden);
            Increasing(seen) && AllPages(seen, spec, order, limit, cursor) == Full(seen, spec, order, cursor)
    ensures (forall e :: e in all ==> Visible(e, excluded, hidden)) ==>
              PageOf(VisibleOf(all, excluded, hidden), spec, order, Some(limit), cursor) == PageOf(all, spec, order,
                                                                                                   Some(limit), cursor)
  {
    hide PageOf;
    hide Full;
    VisibleMembers(all, excluded, hidden);
  }

  /** Reading every page newest-first, at any page size, is the reverse of reading every page
      oldest-first, at any other. */
  lemma PagesReverse(all: seq<LogEntry>, spec: QuerySpec, limit: int, other: int)
    requires Increasing(all) && limit > 0 && other > 0
    ensures AllPages(all, spec, Desc, limit, None) == Reversed(AllPages(all, spec, Asc, other, None))
  {
    hide AllPages;
    hide Select;
    hide Reversed;
  }

  /** The last `n` elements, as a bounded deque retains them. */
  function Newest<T>(n: Option<nat>, s: seq<T>): seq<T> {
    if n.None? || |s| <= n.value then s else s[|s| - n.value..]
  }

  lemma NewestReversed<T>(n: Option<nat>, s: seq<T>)
    ensures Reversed(Newest(n, s)) == Take(n, Reversed(s))
  {
    ReversedMembers(s);
    ReversedMembers(Newest(n, s));
  }

  /** What the strict reader holds after keeping `kept`. */
  function Retained(order: Order, fetch: Option<nat>, kept: seq<LogEntry>): seq<LogEntry> {
    if order.Asc? then Take(fetch, kept) else Newest(fetch, kept)
  }

  lemma RetainOne(order: Order, fetch: Option<nat>, kept: seq<LogEntry>, e: LogEntry)
    requires fetch.Some? ==> fetch.value > 0
    ensures var r := Retained(order, fetch, kept);
            Retained(order, fetch, kept + [e])
            == if fetch.None? || |r| < fetch.value then r + [e]
               else if order.Asc? then r else (r + [e])[1..]
  {
  }

  /** What the rest of the scan will still contribute. */
  function Upcoming(scanned: seq<LogEntry>, i: nat, spec: QuerySpec, excluded: set<int>,
                    hidden: LogEntry -> bool): seq<LogEntry>
    requires i <= |scanned|
  {
    Select(VisibleOf(scanned[i..], excluded, hidden), spec)
  }

  /** Filtering a validated scan: a list when ascending, a bounded deque when descending. */
  method StrictFetch(scanned: seq<LogEntry>, spec: QuerySpec, order: Order, fetch: Option<nat>,
                     excluded: set<int>, hidden: LogEntry -> bool)
    returns (entries: seq<LogEntry>)
    requires fetch.Some? ==> fetch.value > 0
    ensures entries == Take(fetch, Ordered(Select(VisibleOf(scanned, excluded, hidden), spec), order))
  {
    hide Wanted;
    hide Matches;
    hide Upcoming;
    hide Retained;
    hide Select;
    hide VisibleOf;
    hide Reversed;
    hide Take;
    var retained: seq<LogEntry> := [];
    ghost var kept: seq<LogEntry> := [];
    ghost var all := Select(VisibleOf(scanned, excluded, hidden), spec);
    UpcomingEnds(scanned, spec, excluded, hidden, order, fetch);
    assert [] + Upcoming(scanned, 0, spec, excluded, hidden) == all;
    var i := 0;
    while i < |scanned|
      invariant 0 <= i <= |scanned|
      invariant kept + Upcoming(scanned, i, spec, excluded, hidden) == all
      invariant retained == Retained(order, fetch, kept)
    {
      var e := scanned[i];
      StrictStep(scanned, i, spec, excluded, hidden);
      i := i + 1;
      if spec.afterSeq.Some? && e.seqNo < spec.afterSeq.value {
        NotInRange(e, spec);
        continue;
      }
      if spec.beforeSeq.Some? && e.seqNo > spec.beforeSeq.value {
        NotInRange(e, spec);
        continue;
      }
      WantedMatches(e, spec);
      if e.seqNo in excluded || hidden(e) || !Matches(e, spec) {
        continue;
      }
      RetainOne(order, fetch, kept, e);
      assert kept + ([e] + Upcoming(scanned, i, spec, excluded, hidden))
          == kept + [e] + Upcoming(scanned, i, spec, excluded, hidden);
      kept := kept + [e];
      if order.Asc? && fetch.Some? && |retained| >= fetch.value {
        continue;
      }
      retained := retained + [e];
      if order.Desc? && fetch.Some? && |retained| > fetch.value {
        retained := retained[1..];
      }
    }
    assert kept + [] == kept;
    RetainedIsFetched(order, fetch, kept);
    return Ordered(retained, order);
  }

  lemma UpcomingEnds(scanned: seq<LogEntry>, spec: QuerySpec, excluded: set<int>, hidden: LogEntry -> bool,
                     order: Order, fetch: Option<nat>)
    ensures Upcoming(scanned, 0, spec, excluded, hidden) == Select(VisibleOf(scanned, excluded, hidden), spec)
    ensures Upcoming(scanned, |scanned|, spec, excluded, hidden) == []
    ensures Retained(order, fetch, []) == []
  {
    assert scanned[0..] == scanned && scanned[|scanned|..] == [];
  }

  lemma RetainedIsFetched(order: Order, fetch: Option<nat>, kept: seq<LogEntry>)
    ensures Ordered(Retained(order, fetch, kept), order) == Take(fetch, Ordered(kept, order))
  {
    NewestReversed(fetch, kept);
  }

  lemma StrictStep(scanned: seq<LogEntry>, i: nat, spec: QuerySpec, excluded: set<int>, hidden: LogEntry -> bool)
    requires i < |scanned|
    ensures var e := scanned[i];
            var rest := Upcoming(scanned, i + 1, spec, excluded, hidden);
            Upcoming(scanned, i, spec, excluded, hidden)
            == if Visible(e, excluded, hidden) && Wanted(e, spec) then [e] + rest else rest
  {
    hide Wanted;
    assert scanned[i..][1..] == scanned[i + 1..];
    var later := VisibleOf(scanned[i + 1..], excluded, hidden);
    if Visible(scanned[i], excluded, hidden) {
      SelectCons(scanned[i], later, spec);
    } else {
      assert [] + later == later;
    }
  }
}
