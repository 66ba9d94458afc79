/** The strict current scan: it accepts one damaged line and names what is missing. */
module StrictScan {
  import opened Json
  import opened Records
  import opened Lines

  /** Position of a physical line. */
  datatype Place = Place(file: nat, offset: nat, length: nat)

  datatype Piece = Piece(line: Line, terminated: bool, at: Place)

  /** The quarantined line and the accepted sequences on either side of it. */
  datatype Gap = Gap(at: Place, afterSeq: Option<int>, beforeSeq: Option<int>)

  datatype Scan = Refused | Scan(previous: Option<int>, gap: Option<Gap>, output: seq<LogEntry>)

  function FilePieces(s: seq<byte>, file: nat, offset: nat): seq<Piece>
    requires offset <= |s|
    decreases |s| - offset
  {
    if offset == |s| then []
    else
      var n := LineLength(s[offset..]);
      [Piece(ParseStrict(s[offset..offset + n]), s[offset + n - 1] == NEWLINE, Place(file, offset, n))]
      + FilePieces(s, file, offset + n)
  }

  /** Every physical line of the files, in reading order. */
  function Pieces(files: seq<seq<byte>>, from: nat): seq<Piece>
    requires from <= |files|
    decreases |files| - from
  {
    if from == |files| then [] else FilePieces(files[from], from, 0) + Pieces(files, from + 1)
  }

  function Pending(sc: Scan): bool {
    sc.Scan? && sc.gap.Some? && sc.gap.value.beforeSeq.None?
  }

  /** One accepted entry: consecutive, or merely later right after the quarantined line. */
  function Accept(sc: Scan, e: LogEntry): Scan {
    if sc.Refused? then Refused
    else if e.seqNo <= 0 then Refused
    else if sc.previous.Some? && (if Pending(sc) then e.seqNo <= sc.previous.value
                                  else e.seqNo != sc.previous.value + 1) then Refused
    else Scan(Some(e.seqNo),
              if Pending(sc) then Some(sc.gap.value.(beforeSeq := Some(e.seqNo))) else sc.gap,
              sc.output + [e])
  }

  function StepLine(sc: Scan, p: Piece): Scan {
    if sc.Refused? then Refused
    else
      match p.line
      case Blank => sc
      case Malformed => Refused
      case Torn =>
        if sc.gap.Some? || !p.terminated then Refused
        else sc.(gap := Some(Gap(p.at, sc.previous, None)))
      case Entry(e) => Accept(sc, e)
  }

  function ScanPieces(sc: Scan, ps: seq<Piece>): Scan
    decreases |ps|
  {
    if ps == [] then sc else ScanPieces(StepLine(sc, ps[0]), ps[1..])
  }

  const START := Scan(None, None, [])

  /** The scan itself: every file from its first byte, line by line. */
  method ScanCurrentStrict(files: seq<seq<byte>>) returns (sc: Scan)
    ensures sc == ScanPieces(START, Pieces(files, 0))
  {
    sc := START;
    var f := 0;
    while f < |files|
      invariant 0 <= f <= |files|
      invariant ScanPieces(sc, Pieces(files, f)) == ScanPieces(START, Pieces(files, 0))
    {
      ScanConcat(sc, FilePieces(files[f], f, 0), Pieces(files, f + 1));
      sc := ScanFile(sc, files[f], f);
      f := f + 1;
    }
  }

  method ScanFile(before: Scan, s: seq<byte>, file: nat) returns (sc: Scan)
    ensures sc == ScanPieces(before, FilePieces(s, file, 0))
  {
    hide StepLine;
    hide ParseStrict;
    sc := before;
    var offset := 0;
    while offset < |s|
      invariant 0 <= offset <= |s|
      invariant ScanPieces(sc, FilePieces(s, file, offset)) == ScanPieces(before, FilePieces(s, file, 0))
    {
      var n := LineLength(s[offset..]);
      var raw := s[offset..offset + n];
      sc := StepLine(sc, Piece(ParseStrict(raw), raw[n - 1] == NEWLINE, Place(file, offset, n)));
      offset := offset + n;
    }
  }

  // ------------------------------------------------- which files are accepted

  function Goods(ps: seq<Piece>): seq<LogEntry> {
    if ps == [] then []
    else (if ps[0].line.Entry? then [ps[0].line.entry] else []) + Goods(ps[1..])
  }

  predicate Clean(ps: seq<Piece>) {
    forall i :: 0 <= i < |ps| ==> !ps[i].line.Torn? && !ps[i].line.Malformed?
  }

  /** Positive sequence numbers, each one more than the previous. */
  predicate Consecutive(es: seq<LogEntry>) {
    && (es != [] ==> es[0].seqNo > 0)
    && forall i :: 0 < i < |es| ==> es[i].seqNo == es[i - 1].seqNo + 1
  }

  predicate TornAt(ps: seq<Piece>, k: nat)
    requires k < |ps|
  {
    var a, b := Goods(ps[..k]), Goods(ps[k + 1..]);
    && ps[k].line.Torn?
    && ps[k].terminated
    && Clean(ps[..k])
    && Clean(ps[k + 1..])
    && Consecutive(a)
    && Consecutive(b)
    && (a != [] && b != [] ==> LastSeq(a) < FirstSeq(b))
  }

  /** At most one torn line, newline-terminated; otherwise well-formed consecutive entries. */
  ghost predicate Acceptable(ps: seq<Piece>) {
    || (Clean(ps) && Consecutive(Goods(ps)))
    || exists k :: 0 <= k < |ps| && TornAt(ps, k)
  }

  lemma {:induction false} ScanConcat(sc: Scan, a: seq<Piece>, b: seq<Piece>)
    ensures ScanPieces(sc, a + b) == ScanPieces(ScanPieces(sc, a), b)
    decreases |a|
  {
    hide StepLine;
    if a == [] {
      assert a + b == b;
    } else {
      assert (a + b)[1..] == a[1..] + b;
      ScanConcat(StepLine(sc, a[0]), a[1..], b);
    }
  }

  lemma {:induction false} RefusedStays(ps: seq<Piece>)
    ensures ScanPieces(Refused, ps) == Refused
    decreases |ps|
  {
    if ps != [] {
      RefusedStays(ps[1..]);
    }
  }

  /** The entries may continue a scan that has reached `sc`. */
  predicate Continues(sc: Scan, es: seq<LogEntry>)
    requires sc.Scan?
  {
    && Consecutive(es)
    && (es != [] && sc.previous.Some? ==>
          if Pending(sc) then es[0].seqNo > sc.previous.value else es[0].seqNo == sc.previous.value + 1)
  }

  function After(sc: Scan, es: seq<LogEntry>): Scan
    requires sc.Scan?
  {
    if es == [] then sc
    else Scan(Some(LastSeq(es)),
              if Pending(sc) then Some(sc.gap.value.(beforeSeq := Some(FirstSeq(es)))) else sc.gap,
              sc.output + es)
  }

  lemma ContinuesCons(sc: Scan, es: seq<LogEntry>)
    requires sc.Scan? && es != []
    ensures Continues(sc, es) <==> Accept(sc, es[0]).Scan? && Continues(Accept(sc, es[0]), es[1..])
    ensures Continues(sc, es) ==> After(sc, es) == After(Accept(sc, es[0]), es[1..])
  {
    var r := Accept(sc, es[0]);
    if r.Scan? {
      assert !Pending(r);
      assert sc.output + es == sc.output + [es[0]] + es[1..];
      if |es| > 1 {
        assert es[1..][0] == es[1];
      }
      if Continues(r, es[1..]) {
        forall i | 0 < i < |es|
          ensures es[i].seqNo == es[i - 1].seqNo + 1
        {
          if i > 1 {
            assert es[1..][i - 1] == es[i] && es[1..][i - 2] == es[i - 1];
          }
        }
      }
    }
  }

  /** Over undamaged lines the scan is exactly: do the entries continue it? */
  lemma {:induction false} ScanClean(sc: Scan, ps: seq<Piece>)
    requires sc.Scan? && Clean(ps)
    ensures ScanPieces(sc, ps) == if Continues(sc, Goods(ps)) then After(sc, Goods(ps)) else Refused
    decreases |ps|
  {
    hide Accept;
    hide Continues;
    hide After;
    if ps == [] {
      ContinuesNothing(sc);
    } else if ps[0].line.Entry? {
      var e := ps[0].line.entry;
      assert Goods(ps)[0] == e && Goods(ps)[1..] == Goods(ps[1..]);
      ContinuesCons(sc, Goods(ps));
      if Accept(sc, e).Scan? {
        ScanClean(Accept(sc, e), ps[1..]);
      } else {
        RefusedStays(ps[1..]);
      }
    } else {
      assert ps[0].line.Blank?;
      assert Goods(ps) == Goods(ps[1..]);
      ScanClean(sc, ps[1..]);
    }
  }

  lemma ContinuesNothing(sc: Scan)
    requires sc.Scan?
    ensures Continues(sc, []) && After(sc, []) == sc
  {
  }

  lemma {:induction false} ScanKeepsGap(sc: Scan, ps: seq<Piece>)
    requires sc.Scan? && sc.gap.Some? && ScanPieces(sc, ps).Scan?
    ensures Clean(ps)
    decreases |ps|
  {
    if ps != [] {
      if StepLine(sc, ps[0]).Refused? {
        RefusedStays(ps[1..]);
      } else {
        ScanKeepsGap(StepLine(sc, ps[0]), ps[1..]);
        assert forall i :: 0 < i < |ps| ==> ps[i] == ps[1..][i - 1];
      }
    }
  }

  lemma {:induction false} FirstDamage(ps: seq<Piece>) returns (k: nat)
    requires !Clean(ps)
    ensures k < |ps| && Clean(ps[..k])
    ensures ps[k].line.Torn? || ps[k].line.Malformed?
  {
    k := 0;
    while k < |ps| && !ps[k].line.Torn? && !ps[k].line.Malformed?
      invariant 0 <= k <= |ps|
      invariant Clean(ps[..k])
    {
      k := k + 1;
    }
  }

  /** The scan over damaged input, split at its first damaged line. */
  lemma ScanAtDamage(ps: seq<Piece>, k: nat)
    requires k < |ps| && Clean(ps[..k])
    ensures ScanPieces(START, ps) == ScanPieces(StepLine(ScanPieces(START, ps[..k]), ps[k]), ps[k + 1..])
    ensures ScanPieces(START, ps[..k])
            == if Consecutive(Goods(ps[..k])) then After(START, Goods(ps[..k])) else Refused
  {
    hide StepLine;
    hide After;
    assert ps == ps[..k] + ps[k..];
    assert ps[k..][1..] == ps[k + 1..];
    ScanConcat(START, ps[..k], ps[k..]);
    ScanClean(START, ps[..k]);
  }

  /** The state of an accepted scan whose damaged line lies between `a` and `b`. */
  function Bridged(a: seq<LogEntry>, at: Place, b: seq<LogEntry>): Scan {
    Scan(if a + b == [] then None else Some(LastSeq(a + b)),
         Some(Gap(at, if a == [] then None else Some(LastSeq(a)), if b == [] then None else Some(FirstSeq(b)))),
         a + b)
  }

  /** The state right after the damaged line, `a` read before it. */
  function Quarantined(a: seq<LogEntry>, at: Place): Scan {
    var last := if a == [] then None else Some(LastSeq(a));
    Scan(last, Some(Gap(at, last, None)), a)
  }

  lemma GapContinues(a: seq<LogEntry>, at: Place, b: seq<LogEntry>)
    ensures var sc := Quarantined(a, at);
            && (Continues(sc, b) <==> Consecutive(b) && (a != [] && b != [] ==> LastSeq(a) < FirstSeq(b)))
            && After(sc, b) == Bridged(a, at, b)
  {
    assert b == [] ==> a + b == a;
    assert a == [] ==> a + b == b;
  }

  lemma QuarantineStep(a: seq<LogEntry>, p: Piece)
    requires p.line.Torn? && p.terminated
    ensures StepLine(After(START, a), p) == Quarantined(a, p.at)
  {
    assert [] + a == a;
  }

  lemma TornIsAccepted(ps: seq<Piece>, k: nat)
    requires k < |ps| && Clean(ps[..k])
    requires ps[k].line.Torn? && ps[k].terminated
    requires Consecutive(Goods(ps[..k])) && Clean(ps[k + 1..])
    ensures ScanPieces(START, ps).Scan? <==> TornAt(ps, k)
    ensures TornAt(ps, k) ==> ScanPieces(START, ps) == Bridged(Goods(ps[..k]), ps[k].at, Goods(ps[k + 1..]))
  {
    hide Goods;
    hide Consecutive;
    hide Continues;
    hide After;
    hide StepLine;
    ScanAtDamage(ps, k);
    var a, b := Goods(ps[..k]), Goods(ps[k + 1..]);
    GapContinues(a, ps[k].at, b);
    QuarantineStep(a, ps[k]);
    ScanClean(Quarantined(a, ps[k].at), ps[k + 1..]);
  }

  /** Exactly which files the strict scan accepts. */
  lemma ScanAcceptsExactly(ps: seq<Piece>)
    ensures ScanPieces(START, ps).Scan? <==> Acceptable(ps)
  {
    hide ScanPieces;
    hide StepLine;
    hide TornAt;
    if Clean(ps) {
      ScanClean(START, ps);
      forall k | 0 <= k < |ps|
        ensures !TornAt(ps, k)
      {
        CleanHasNoTorn(ps, k);
      }
    } else {
      var k := FirstDamage(ps);
      DamageAccepted(ps, k);
      forall j | 0 <= j < |ps| && TornAt(ps, j)
        ensures j == k
      {
        OnlyDamage(ps, j, k);
      }
    }
  }

  lemma CleanHasNoTorn(ps: seq<Piece>, k: nat)
    requires Clean(ps) && k < |ps|
    ensures !TornAt(ps, k)
  {
  }

  lemma OnlyDamage(ps: seq<Piece>, j: nat, k: nat)
    requires j < |ps| && k < |ps| && TornAt(ps, j)
    requires ps[k].line.Torn? || ps[k].line.Malformed?
    ensures j == k
  {
    hide Goods;
    assert forall i {:trigger ps[i]} :: 0 <= i < j ==> ps[i] == ps[..j][i];
    assert forall i {:trigger ps[i]} :: j < i < |ps| ==> ps[i] == ps[j + 1..][i - j - 1];
  }

  lemma DamageAccepted(ps: seq<Piece>, k: nat)
    requires k < |ps| && Clean(ps[..k])
    requires ps[k].line.Torn? || ps[k].line.Malformed?
    ensures ScanPieces(START, ps).Scan? <==> TornAt(ps, k)
  {
    hide Goods;
    hide Consecutive;
    hide Clean;
    ScanAtDamage(ps, k);
    RefusedStays(ps[k + 1..]);
    if ps[k].line.Torn? && ps[k].terminated && Consecutive(Goods(ps[..k])) {
      var sc := StepLine(After(START, Goods(ps[..k])), ps[k]);
      if Clean(ps[k + 1..]) {
        TornIsAccepted(ps, k);
      } else if ScanPieces(sc, ps[k + 1..]).Scan? {
        ScanKeepsGap(sc, ps[k + 1..]);
      }
    }
  }

  // ------------------------------------------------------ what acceptance means

  predicate Missing(es: seq<LogEntry>, q: int) {
    && es != []
    && es[0].seqNo <= q <= es[|es| - 1].seqNo
    && forall i :: 0 <= i < |es| ==> es[i].seqNo != q
  }

  lemma {:induction false} ConsecutiveOffsets(es: seq<LogEntry>, i: nat)
    requires Consecutive(es) && i < |es|
    ensures es[i].seqNo == es[0].seqNo + i
    decreases i
  {
    if i > 0 {
      ConsecutiveOffsets(es, i - 1);
    }
  }

  lemma ConsecutiveMissesNothing(es: seq<LogEntry>, q: int)
    requires Consecutive(es)
    ensures !Missing(es, q)
  {
    if es != [] {
      ConsecutiveOffsets(es, |es| - 1);
      if es[0].seqNo <= q <= es[|es| - 1].seqNo {
        ConsecutiveOffsets(es, q - es[0].seqNo);
      }
    }
  }

  lemma {:induction false} GoodsConcat(a: seq<Piece>, b: seq<Piece>)
    ensures Goods(a + b) == Goods(a) + Goods(b)
    decreases |a|
  {
    if a == [] {
      assert a + b == b;
    } else {
      assert (a + b)[1..] == a[1..] + b;
      GoodsConcat(a[1..], b);
    }
  }

  lemma BridgedOffsets(a: seq<LogEntry>, b: seq<LogEntry>, i: nat)
    requires Consecutive(a) && Consecutive(b) && i < |a + b|
    ensures (a + b)[i].seqNo == if i < |a| then a[0].seqNo + i else b[0].seqNo + (i - |a|)
  {
    if i < |a| { ConsecutiveOffsets(a, i); } else { ConsecutiveOffsets(b, i - |a|); }
  }

  predicate Bridges(a: seq<LogEntry>, b: seq<LogEntry>) {
    Consecutive(a) && Consecutive(b) && (a != [] && b != [] ==> LastSeq(a) < FirstSeq(b))
  }

  lemma BridgedIncreases(a: seq<LogEntry>, b: seq<LogEntry>)
    requires Bridges(a, b)
    ensures Increasing(a + b)
  {
    if a != [] { ConsecutiveOffsets(a, |a| - 1); }
    forall i, j | 0 <= i < j < |a + b|
      ensures (a + b)[i].seqNo < (a + b)[j].seqNo
    {
      BridgedOffsets(a, b, i);
      BridgedOffsets(a, b, j);
    }
  }

  lemma BridgedMisses(a: seq<LogEntry>, b: seq<LogEntry>, q: int)
    requires Bridges(a, b) && Missing(a + b, q)
    ensures a != [] && b != [] && LastSeq(a) < q < FirstSeq(b)
  {
    assert a == [] ==> a + b == b;
    assert b == [] ==> a + b == a;
    ConsecutiveMissesNothing(a, q);
    ConsecutiveMissesNothing(b, q);
    ConsecutiveOffsets(a, |a| - 1);
    ConsecutiveOffsets(b, |b| - 1);
    if q <= LastSeq(a) {
      BridgedOffsets(a, b, q - a[0].seqNo);
    }
    if q >= FirstSeq(b) {
      BridgedOffsets(a, b, |a| + q - b[0].seqNo);
    }
  }

  /** On acceptance the output is every well-formed entry in strictly increasing order,
      and any sequence missing from it lies inside the quarantined line's gap. */
  lemma AcceptedScan(ps: seq<Piece>, q: int)
    requires ScanPieces(START, ps).Scan?
    ensures var sc := ScanPieces(START, ps);
            && sc.output == Goods(ps)
            && Increasing(sc.output)
            && (sc.gap.Some? <==> !Clean(ps))
            && (Missing(sc.output, q) ==>
                  sc.gap.Some? && sc.gap.value.afterSeq.Some? && sc.gap.value.beforeSeq.Some?
                  && sc.gap.value.afterSeq.value < q < sc.gap.value.beforeSeq.value)
  {
    hide ScanPieces;
    hide Goods;
    hide Consecutive;
    hide Increasing;
    hide Missing;
    hide LastSeq;
    hide FirstSeq;
    var a, b, at := AcceptedSplits(ps);
    BridgedIncreases(a, b);
    if Missing(a + b, q) {
      BridgedMisses(a, b, q);
    }
  }

  /** An accepted scan read two consecutive runs, with the damaged line between them. */
  lemma AcceptedSplits(ps: seq<Piece>) returns (a: seq<LogEntry>, b: seq<LogEntry>, at: Place)
    requires ScanPieces(START, ps).Scan?
    ensures Bridges(a, b) && Goods(ps) == a + b
    ensures ScanPieces(START, ps).output == a + b
    ensures Clean(ps) ==> b == [] && ScanPieces(START, ps).gap == None
    ensures !Clean(ps) ==> ScanPieces(START, ps) == Bridged(a, at, b)
  {
    hide ScanPieces;
    hide StepLine;
    if Clean(ps) {
      ScanClean(START, ps);
      a, b, at := Goods(ps), [], Place(0, 0, 0);
    } else {
      var k := FirstDamage(ps);
      DamageAccepted(ps, k);
      TornIsAccepted(ps, k);
      a, b, at := Goods(ps[..k]), Goods(ps[k + 1..]), ps[k].at;
      GoodsAround(ps, k);
    }
  }

  lemma GoodsAround(ps: seq<Piece>, k: nat)
    requires k < |ps| && ps[k].line.Torn?
    ensures Goods(ps) == Goods(ps[..k]) + Goods(ps[k + 1..])
  {
    assert ps == ps[..k] + ps[k..];
    GoodsConcat(ps[..k], ps[k..]);
    assert ps[k..][1..] == ps[k + 1..];
  }
}
