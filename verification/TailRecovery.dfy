/** Settling the unterminated tail a writer left behind when it died mid-append. */
module TailRecovery {
  import opened Json
  import opened Records
  import opened Lines

  /** Where the last, unterminated line begins. */
  function TailStart(s: seq<byte>): (n: nat)
    ensures n <= |s|
  {
    if Terminated(s) then |s| else TailStart(s[..|s| - 1])
  }

  /** Index of the last newline of a chunk, or -1. */
  function LastNewline(chunk: seq<byte>): (i: int)
    ensures -1 <= i < |chunk|
  {
    if chunk == [] then -1
    else if chunk[|chunk| - 1] == NEWLINE then |chunk| - 1
    else LastNewline(chunk[..|chunk| - 1])
  }

  /** The file after recovery: a complete final line gains its newline, anything
      else after the last newline is cut away. */
  function Recovered(s: seq<byte>): seq<byte> {
    if Terminated(s) then s
    else
      var start := TailStart(s);
      if ParseStrict(s[start..]) in {Torn, Malformed} then s[..start] else s + [NEWLINE]
  }

  lemma {:induction false} TailStartChunk(s: seq<byte>, from: nat)
    requires from <= |s|
    ensures var i := LastNewline(s[from..]);
            TailStart(s) == if i >= 0 then from + i + 1 else TailStart(s[..from])
    decreases |s|
  {
    if from == |s| {
      assert s[from..] == [] && s[..from] == s;
    } else if s[|s| - 1] != NEWLINE {
      var shorter := s[..|s| - 1];
      assert s[from..][..|s| - from - 1] == shorter[from..];
      assert shorter[..from] == s[..from];
      TailStartChunk(shorter, from);
    }
  }

  /** The backwards scan finds the same line start for every chunk size. */
  method FindTailStart(s: seq<byte>, chunkSize: nat) returns (lineStart: nat)
    requires chunkSize >= 1
    ensures lineStart == TailStart(s)
  {
    var scanEnd := |s|;
    assert s[..scanEnd] == s;
    while scanEnd > 0
      invariant 0 <= scanEnd <= |s|
      invariant TailStart(s[..scanEnd]) == TailStart(s)
    {
      var readSize := if chunkSize < scanEnd then chunkSize else scanEnd;
      var scanStart := scanEnd - readSize;
      var newline := LastNewline(s[scanStart..scanEnd]);
      TailStartChunk(s[..scanEnd], scanStart);
      assert s[..scanEnd][scanStart..] == s[scanStart..scanEnd];
      assert s[..scanEnd][..scanStart] == s[..scanStart];
      if newline >= 0 {
        return scanStart + newline + 1;
      }
      scanEnd := scanStart;
    }
    return 0;
  }

  /** Recovery as the opener runs it on the file's bytes. */
  method RecoverTornActiveTail(s: seq<byte>, chunkSize: nat) returns (r: seq<byte>)
    requires chunkSize >= 1
    ensures r == Recovered(s)
  {
    if s == [] || s[|s| - 1] == NEWLINE {
      return s;
    }
    var lineStart := FindTailStart(s, chunkSize);
    match ParseStrict(s[lineStart..]) {
      case Torn => r := s[..lineStart];
      case Malformed => r := s[..lineStart];
      case Blank => r := s + [NEWLINE];
      case Entry(_) => r := s + [NEWLINE];
    }
  }

  // ---------------------------------------------- what recovery guarantees

  lemma {:induction false} TailStartIsLineStart(s: seq<byte>)
    ensures Terminated(s[..TailStart(s)])
    decreases |s|
  {
    if Terminated(s) {
      assert s[..|s|] == s;
    } else {
      var shorter := s[..|s| - 1];
      TailStartIsLineStart(shorter);
      assert shorter[..TailStart(shorter)] == s[..TailStart(s)];
    }
  }

  lemma {:induction false} TailStartAfterTerminated(s: seq<byte>, n: nat)
    requires n <= |s| && Terminated(s[..n])
    ensures n <= TailStart(s)
    decreases |s|
  {
    if n < |s| && !Terminated(s) {
      assert s[..|s| - 1][..n] == s[..n];
      TailStartAfterTerminated(s[..|s| - 1], n);
    } else {
      assert s[..|s|] == s;
    }
  }

  /** Whatever bytes it starts from, recovery leaves whole lines only, is idempotent,
      and keeps every line that was already terminated. */
  lemma RecoveryIsSafe(s: seq<byte>, n: nat)
    requires n <= |s| && Terminated(s[..n])
    ensures Terminated(Recovered(s))
    ensures Recovered(Recovered(s)) == Recovered(s)
    ensures s[..n] <= Recovered(s)
  {
    hide ParseStrict;
    TailStartIsLineStart(s);
    TailStartAfterTerminated(s, n);
  }

  lemma {:induction false} TailStartOfFragment(good: seq<byte>, fragment: seq<byte>)
    requires Terminated(good)
    requires forall i :: 0 <= i < |fragment| ==> fragment[i] != NEWLINE
    ensures TailStart(good + fragment) == |good|
    decreases |fragment|
  {
    if fragment == [] {
      assert good + fragment == good;
    } else {
      var shorter := fragment[..|fragment| - 1];
      assert (good + fragment)[..|good + fragment| - 1] == good + shorter;
      TailStartOfFragment(good, shorter);
    }
  }

  /** Whatever follows the last newline is adopted whole, its newline added, exactly when the
      strict parser reads an entry in it or finds it blank; otherwise all of it goes. */
  lemma TailIsAdopted(good: seq<byte>, fragment: seq<byte>)
    requires Terminated(good) && fragment != [] && forall i :: 0 <= i < |fragment| ==> fragment[i] != NEWLINE
    ensures Recovered(good + fragment) ==
            match ParseStrict(fragment)
            case Entry(_) => good + fragment + [NEWLINE]
            case Blank => good + fragment + [NEWLINE]
            case _ => good
  {
    hide ParseStrict;
    TailStartOfFragment(good, fragment);
    assert (good + fragment)[|good|..] == fragment && (good + fragment)[..|good|] == good;
    assert (good + fragment)[|good + fragment| - 1] == fragment[|fragment| - 1];
  }

  /** How many records of an interrupted write survive when `k` bytes reached the
      disk: the complete ones, counting one that lacks only its newline. */
  function Survivors(es: seq<LogEntry>, k: nat): (j: nat)
    ensures j <= |es|
    decreases |es|
  {
    if es == [] then 0
    else
      var n := |EncodeEntry(es[0])|;
      if k >= n then 1 + Survivors(es[1..], k - n)
      else if k == n - 1 then 1 else 0
  }

  lemma FragmentIsTail(good: seq<byte>, fragment: seq<byte>)
    requires Terminated(good) && fragment != []
    requires forall i :: 0 <= i < |fragment| ==> fragment[i] != NEWLINE
    ensures var s := good + fragment;
            && !Terminated(s)
            && TailStart(s) == |good|
            && s[|good|..] == fragment
            && s[..|good|] == good
  {
    hide TailStart;
    TailStartOfFragment(good, fragment);
  }

  /** A fragment after the last newline is adopted or cut as a whole. */
  lemma FragmentSettles(good: seq<byte>, fragment: seq<byte>)
    requires Terminated(good) && fragment != []
    requires forall i :: 0 <= i < |fragment| ==> fragment[i] != NEWLINE
    ensures ParseStrict(fragment).Torn? ==> Recovered(good + fragment) == good
    ensures ParseStrict(fragment).Entry? ==> Recovered(good + fragment) == good + fragment + [NEWLINE]
  {
    hide ParseStrict;
    hide TailStart;
    hide Terminated;
    FragmentIsTail(good, fragment);
  }

  lemma RecordParts(e: LogEntry, k: nat)
    requires k < |EncodeEntry(e)|
    ensures var body := Encode(Envelope(e));
            && EncodeEntry(e) == body + [NEWLINE]
            && |EncodeEntry(e)| == |body| + 1 >= 3
            && EncodeEntry(e)[..k] == body[..k]
            && forall i :: 0 <= i < k ==> body[..k][i] != NEWLINE
  {
    hide Encode;
    hide Envelope;
    EnvelopeEnds(e);
    NoNewline(Envelope(e));
  }

  lemma FragmentOfOneRecord(good: seq<byte>, e: LogEntry, k: nat)
    requires Terminated(good) && Writable(e)
    requires k < |EncodeEntry(e)|
    ensures Recovered(good + EncodeEntry(e)[..k])
            == if k == |EncodeEntry(e)| - 1 then good + EncodeEntry(e) else good
  {
    hide ParseStrict;
    hide Recovered;
    hide Encode;
    hide Envelope;
    hide EncodeEntry;
    var body := Encode(Envelope(e));
    RecordParts(e, k);
    var fragment := body[..k];
    if k == 0 {
      assert good + fragment == good;
      TerminatedIsRecovered(good);
    } else {
      FragmentSettles(good, fragment);
      if k == |body| {
        StrictRoundTrip(e);
        assert fragment == body;
        assert good + body + [NEWLINE] == good + (body + [NEWLINE]);
      } else {
        PartialRecordIsTorn(e, k);
        StrictAgrees(fragment);
      }
    }
  }

  /** An interrupted write either covers its first record or stops inside it. */
  lemma PrefixStep(es: seq<LogEntry>, k: nat)
    requires es != [] && k <= |EncodeAll(es)|
    ensures var n := |EncodeEntry(es[0])|;
            if k >= n then
              && k - n <= |EncodeAll(es[1..])|
              && EncodeAll(es)[..k] == EncodeEntry(es[0]) + EncodeAll(es[1..])[..k - n]
              && Survivors(es, k) == 1 + Survivors(es[1..], k - n)
            else
              && EncodeAll(es)[..k] == EncodeEntry(es[0])[..k]
              && Survivors(es, k) == if k == n - 1 then 1 else 0
  {
    hide EncodeEntry;
    var first, later := EncodeEntry(es[0]), EncodeAll(es[1..]);
    assert EncodeAll(es) == first + later;
  }

  lemma Regrouped(a: seq<byte>, b: seq<byte>, c: seq<byte>)
    ensures a + (b + c) == (a + b) + c
  {
  }

  /** Crash atomicity of an append: whatever prefix of the in-flight bytes survives,
      recovery yields the old file plus a whole-record prefix of the new entries. */
  lemma {:induction false} CrashedAppendRecovers(good: seq<byte>, es: seq<LogEntry>, k: nat)
    requires Terminated(good) && k <= |EncodeAll(es)|
    requires forall e :: e in es ==> Writable(e)
    ensures Recovered(good + EncodeAll(es)[..k]) == good + EncodeAll(es[..Survivors(es, k)])
    decreases |es|
  {
    hide Recovered;
    hide EncodeEntry;
    hide EncodeAll;
    hide Survivors;
    hide Writable;
    if es == [] {
      NothingWritten(good, es, k);
    } else {
      var first := EncodeEntry(es[0]);
      var n := |first|;
      PrefixStep(es, k);
      if k >= n {
        EncodedEntryIsOneLine(es[0]);
        var j := Survivors(es[1..], k - n);
        Regrouped(good, first, EncodeAll(es[1..])[..k - n]);
        CrashedAppendRecovers(good + first, es[1..], k - n);
        TakeCons(es, j);
        Regrouped(good, first, EncodeAll(es[1..][..j]));
      } else {
        FragmentOfOneRecord(good, es[0], k);
        TakeFew(es, good);
      }
    }
  }

  lemma NothingWritten(good: seq<byte>, es: seq<LogEntry>, k: nat)
    requires Terminated(good) && es == [] && k <= |EncodeAll(es)|
    ensures Recovered(good + EncodeAll(es)[..k]) == good + EncodeAll(es[..Survivors(es, k)])
  {
    assert good + EncodeAll(es)[..k] == good;
    assert good + EncodeAll(es[..0]) == good;
  }

  lemma TakeFew(es: seq<LogEntry>, good: seq<byte>)
    requires es != []
    ensures good + EncodeAll(es[..0]) == good
    ensures EncodeAll(es[..1]) == EncodeEntry(es[0])
  {
    hide EncodeEntry;
    assert es[..0] == [];
    assert es[..1] == [es[0]] && [es[0]][1..] == [];
    assert EncodeAll([es[0]]) == EncodeEntry(es[0]) + EncodeAll([es[0]][1..]);
  }

  lemma TerminatedIsRecovered(s: seq<byte>)
    requires Terminated(s)
    ensures Recovered(s) == s
  {
  }

  lemma TakeCons(es: seq<LogEntry>, j: nat)
    requires es != [] && j <= |es| - 1
    ensures EncodeAll(es[..j + 1]) == EncodeEntry(es[0]) + EncodeAll(es[1..][..j])
  {
    assert es[..j + 1][0] == es[0];
    assert es[..j + 1][1..] == es[1..][..j];
  }

  /** A reader sees the survivors before recovery has run, and recovery does not change them. */
  lemma {:induction false} CrashedAppendReads(good: seq<byte>, es: seq<LogEntry>, k: nat)
    requires Terminated(good) && k <= |EncodeAll(es)|
    requires forall e :: e in es ==> Writable(e)
    ensures Entries(good + EncodeAll(es)[..k]) == Entries(good) + es[..Survivors(es, k)]
    ensures Entries(Recovered(good + EncodeAll(es)[..k])) == Entries(good) + es[..Survivors(es, k)]
  {
    hide Entries;
    CrashedAppendRecovers(good, es, k);
    var j := Survivors(es, k);
    EntriesOfEncodeAll(es[..j]);
    EntriesConcat(good, EncodeAll(es[..j]));
    PrefixReads(es, k);
    EntriesConcat(good, EncodeAll(es)[..k]);
  }

  lemma {:induction false} PrefixReads(es: seq<LogEntry>, k: nat)
    requires k <= |EncodeAll(es)|
    ensures Entries(EncodeAll(es)[..k]) == es[..Survivors(es, k)]
    decreases |es|
  {
    hide EncodeEntry;
    hide EncodeAll;
    hide Survivors;
    hide Entries;
    if es == [] {
      NothingReads(es, k);
    } else {
      var first := EncodeEntry(es[0]);
      var n := |first|;
      PrefixStep(es, k);
      if k >= n {
        EncodedEntryIsOneLine(es[0]);
        EntriesConcat(first, EncodeAll(es[1..])[..k - n]);
        PrefixReads(es[1..], k - n);
        assert [es[0]] + es[1..][..Survivors(es[1..], k - n)] == es[..Survivors(es, k)];
      } else {
        FragmentReads(es[0], k);
        assert es[..1] == [es[0]];
      }
    }
  }

  lemma NothingReads(es: seq<LogEntry>, k: nat)
    requires es == [] && k <= |EncodeAll(es)|
    ensures Entries(EncodeAll(es)[..k]) == es[..Survivors(es, k)]
  {
    assert EncodeAll(es)[..k] == [];
  }

  lemma FragmentReads(e: LogEntry, k: nat)
    requires k < |EncodeEntry(e)|
    ensures Entries(EncodeEntry(e)[..k]) == if k == |EncodeEntry(e)| - 1 then [e] else []
  {
    hide ParseLine;
    hide Encode;
    hide Envelope;
    hide EncodeEntry;
    var body := Encode(Envelope(e));
    RecordParts(e, k);
    if k > 0 {
      OneLine(body[..k]);
      EntryRoundTrip(e);
      if k == |body| {
        assert body[..k] == body;
      } else {
        PartialRecordIsTorn(e, k);
      }
    }
  }
}
