/** Physical lines of a log file: the forward reader, the chunked reverse reader
    and the sequence bounds both of them find. */
module Lines {
  import opened Json
  import opened Records

  predicate Terminated(s: seq<byte>) {
    s == [] || s[|s| - 1] == NEWLINE
  }

  /** An offset a forward reader may start from without splitting a line. */
  predicate LineStart(s: seq<byte>, offset: nat) {
    offset <= |s| && Terminated(s[..offset])
  }

  /** Length of the first line, its newline included. */
  function LineLength(s: seq<byte>): (n: nat)
    requires s != []
    ensures 1 <= n <= |s|
    ensures s[n - 1] == NEWLINE || n == |s|
  {
    if s[0] == NEWLINE || |s| == 1 then 1 else 1 + LineLength(s[1..])
  }

  function EntryOf(raw: seq<byte>): seq<LogEntry> {
    match ParseEntry(raw) { case Some(e) => [e] case None => [] }
  }

  /** Every entry a forward line-by-line scan of the file yields. */
  function Entries(s: seq<byte>): seq<LogEntry>
    decreases |s|
  {
    if s == [] then [] else EntryOf(s[..LineLength(s)]) + Entries(s[LineLength(s)..])
  }

  lemma {:induction false} LineLengthUnique(s: seq<byte>, n: nat)
    requires 1 <= n <= |s|
    requires s[n - 1] == NEWLINE || n == |s|
    requires forall i :: 0 <= i < n - 1 ==> s[i] != NEWLINE
    ensures LineLength(s) == n
    decreases n
  {
    if n > 1 {
      LineLengthUnique(s[1..], n - 1);
    }
  }

  /** What follows a terminated first line does not matter to it. */
  lemma LineLengthConcat(a: seq<byte>, b: seq<byte>)
    requires a != [] && a[LineLength(a) - 1] == NEWLINE
    ensures LineLength(a + b) == LineLength(a)
  {
    LineLengthFirst(a);
    LineLengthUnique(a + b, LineLength(a));
  }

  lemma {:induction false} LineLengthFirst(a: seq<byte>)
    requires a != []
    ensures forall i :: 0 <= i < LineLength(a) - 1 ==> a[i] != NEWLINE
    decreases |a|
  {
    if a[0] != NEWLINE && |a| > 1 {
      LineLengthFirst(a[1..]);
    }
  }

  lemma FirstLineConcat(a: seq<byte>, b: seq<byte>)
    requires a != [] && a[LineLength(a) - 1] == NEWLINE
    ensures Entries(a + b) == EntryOf(a[..LineLength(a)]) + Entries(a[LineLength(a)..] + b)
  {
    hide EntryOf;
    var n := LineLength(a);
    LineLengthConcat(a, b);
    assert (a + b)[..n] == a[..n];
    assert (a + b)[n..] == a[n..] + b;
  }

  /** Scanning two parts one after the other is scanning the whole, at a line boundary. */
  lemma {:induction false} EntriesConcat(a: seq<byte>, b: seq<byte>)
    requires Terminated(a)
    ensures Entries(a + b) == Entries(a) + Entries(b)
    decreases |a|
  {
    hide Entries;
    hide EntryOf;
    if a == [] {
      assert a + b == b;
      NoLines();
    } else {
      FirstLineConcat(a, b);
      FirstLineConcat(a, []);
      assert a + [] == a && a[LineLength(a)..] + [] == a[LineLength(a)..];
      EntriesConcat(a[LineLength(a)..], b);
    }
  }

  lemma NoLines()
    ensures Entries([]) == []
  {
  }

  lemma OneLine(s: seq<byte>)
    requires s != [] && forall i :: 0 <= i < |s| - 1 ==> s[i] != NEWLINE
    ensures Entries(s) == EntryOf(s)
  {
    LineLengthUnique(s, |s|);
    assert s[..|s|] == s && s[|s|..] == [];
  }

  lemma EncodedEntryIsOneLine(e: LogEntry)
    ensures EncodeEntry(e) != [] && Terminated(EncodeEntry(e))
    ensures Entries(EncodeEntry(e)) == [e]
  {
    NoNewline(Envelope(e));
    OneLine(EncodeEntry(e));
    EntryRoundTrip(e);
  }

  lemma {:induction false} EncodeAllConcat(a: seq<LogEntry>, b: seq<LogEntry>)
    ensures EncodeAll(a + b) == EncodeAll(a) + EncodeAll(b)
    decreases |a|
  {
    if a == [] {
      assert a + b == b;
    } else {
      assert (a + b)[1..] == a[1..] + b;
      EncodeAllConcat(a[1..], b);
    }
  }

  /** A file holding exactly the encodings of `es` reads back as `es`. */
  lemma {:induction false} EntriesOfEncodeAll(es: seq<LogEntry>)
    ensures Terminated(EncodeAll(es))
    ensures Entries(EncodeAll(es)) == es
    ensures EncodeAll(es) == [] <==> es == []
    decreases |es|
  {
    if es != [] {
      EncodedEntryIsOneLine(es[0]);
      EntriesOfEncodeAll(es[1..]);
      EntriesConcat(EncodeEntry(es[0]), EncodeAll(es[1..]));
      assert es == [es[0]] + es[1..];
    }
  }

  // ------------------------------------------------------------- splitting

  /** One more byte in front: a newline opens a new part, any other byte joins the first. */
  function Push(b: byte, parts: seq<seq<byte>>): (r: seq<seq<byte>>)
    requires parts != []
    ensures r != []
  {
    if b == NEWLINE then [[]] + parts else [[b] + parts[0]] + parts[1..]
  }

  /** The newline-separated parts, newlines removed. */
  function Split(s: seq<byte>): (parts: seq<seq<byte>>)
    ensures parts != []
    decreases |s|
  {
    if s == [] then [[]] else Push(s[0], Split(s[1..]))
  }

  /** The non-empty parts, last first: what the reverse reader must yield. */
  function ReversedNonEmpty(parts: seq<seq<byte>>): seq<seq<byte>> {
    if parts == [] then []
    else ReversedNonEmpty(parts[1..]) + (if parts[0] == [] then [] else [parts[0]])
  }

  lemma {:induction false} ReversedNonEmptyConcat(a: seq<seq<byte>>, b: seq<seq<byte>>)
    ensures ReversedNonEmpty(a + b) == ReversedNonEmpty(b) + ReversedNonEmpty(a)
    decreases |a|
  {
    if a == [] {
      assert a + b == b;
    } else {
      assert (a + b)[1..] == a[1..] + b;
      ReversedNonEmptyConcat(a[1..], b);
    }
  }

  lemma PushConcat(b: byte, parts: seq<seq<byte>>, more: seq<seq<byte>>)
    requires parts != []
    ensures Push(b, parts + more) == Push(b, parts) + more
  {
  }

  lemma SplitCons(b: byte, s: seq<byte>)
    ensures Split([b] + s) == Push(b, Split(s))
  {
    hide Push;
    assert ([b] + s)[1..] == s;
  }

  /** Prepending bytes only reshapes the part they touch. */
  lemma {:induction false} SplitConcat(a: seq<byte>, b: seq<byte>)
    ensures Split(a + b) == Split(a + Split(b)[0]) + Split(b)[1..]
    decreases |a|
  {
    hide Push;
    hide Split;
    var head, more := Split(b)[0], Split(b)[1..];
    if a == [] {
      assert a + b == b && a + head == head;
      SplitHead(b);
      assert Split(b) == [head] + more;
    } else {
      assert a + b == [a[0]] + (a[1..] + b);
      assert a + head == [a[0]] + (a[1..] + head);
      SplitCons(a[0], a[1..] + b);
      SplitCons(a[0], a[1..] + head);
      SplitConcat(a[1..], b);
      PushConcat(a[0], Split(a[1..] + head), more);
    }
  }

  lemma {:induction false} SplitHead(b: seq<byte>)
    ensures Split(Split(b)[0]) == [Split(b)[0]]
    decreases |b|
  {
    if b != [] && b[0] != NEWLINE {
      var head := Split(b[1..])[0];
      SplitHead(b[1..]);
      SplitCons(b[0], head);
    }
  }

  /** The first part is the first line, without its newline. */
  lemma {:induction false} SplitFirstLine(s: seq<byte>)
    requires s != []
    ensures var n := LineLength(s);
            Split(s) == if s[n - 1] == NEWLINE then [s[..n - 1]] + Split(s[n..]) else [s]
    decreases |s|
  {
    hide Split;
    hide Push;
    var n := LineLength(s);
    assert s == [s[0]] + s[1..];
    SplitCons(s[0], s[1..]);
    if s[0] == NEWLINE || |s| == 1 {
      SplitShort(s);
    } else {
      SplitFirstLine(s[1..]);
      SplitLonger(s, n);
    }
  }

  lemma SplitShort(s: seq<byte>)
    requires s != [] && (s[0] == NEWLINE || |s| == 1)
    ensures Push(s[0], Split(s[1..])) == if s[0] == NEWLINE then [s[..0]] + Split(s[1..]) else [s]
  {
    if s[0] == NEWLINE {
      assert s[..0] == [];
    } else {
      assert s[1..] == [] && [s[0]] + [] == s;
    }
  }

  lemma SplitLonger(s: seq<byte>, n: nat)
    requires 2 <= n <= |s| && s[0] != NEWLINE
    requires Split(s[1..]) == if s[n - 1] == NEWLINE then [s[1..][..n - 2]] + Split(s[1..][n - 1..]) else [s[1..]]
    ensures Push(s[0], Split(s[1..])) == if s[n - 1] == NEWLINE then [s[..n - 1]] + Split(s[n..]) else [s]
  {
    hide Split;
    assert s[1..][n - 1..] == s[n..];
    assert s[..n - 1] == [s[0]] + s[1..][..n - 2];
    assert s == [s[0]] + s[1..];
  }

  // ------------------------------------------------------ the reverse reader

  /** A yielded line and whether it is the physically last one. */
  datatype ReverseLine = ReverseLine(raw: seq<byte>, isLast: bool)

  function FlagFirst(lines: seq<seq<byte>>): seq<ReverseLine> {
    seq(|lines|, i requires 0 <= i < |lines| => ReverseLine(lines[i], i == 0))
  }

  method IterLinesReverse(content: seq<byte>, chunkSize: nat) returns (lines: seq<ReverseLine>)
    requires chunkSize >= 1
    ensures lines == FlagFirst(ReversedNonEmpty(Split(content)))
  {
    var position := |content|;
    var buffer: seq<byte> := [];
    lines := [];
    ghost var done: seq<seq<byte>> := [];
    assert content[position..] == [];
    while position > 0
      invariant 0 <= position <= |content|
      invariant Split(content[position..]) == [buffer] + done
      invariant lines == FlagFirst(ReversedNonEmpty(done))
    {
      var readSize := if chunkSize < position then chunkSize else position;
      ghost var was := position;
      position := position - readSize;
      var chunk := content[position..position + readSize];
      var parts := Split(chunk + buffer);
      ChunkStep(content, position, was, buffer, done);
      lines := YieldReversed(parts[1..], lines, done);
      done := parts[1..] + done;
      buffer := parts[0];
    }
    assert content[position..] == content;
    LastPart(buffer, done);
    if buffer != [] {
      lines := lines + [ReverseLine(buffer, lines == [])];
    }
  }

  lemma ChunkStep(content: seq<byte>, position: nat, was: nat, buffer: seq<byte>, done: seq<seq<byte>>)
    requires position <= was <= |content|
    requires Split(content[was..]) == [buffer] + done
    ensures var parts := Split(content[position..was] + buffer);
            Split(content[position..]) == [parts[0]] + (parts[1..] + done)
  {
    hide Split;
    var chunk := content[position..was];
    SplitConcat(chunk, content[was..]);
    assert content[position..] == chunk + content[was..];
    var parts := Split(chunk + buffer);
    assert parts + done == [parts[0]] + (parts[1..] + done);
  }

  lemma LastPart(buffer: seq<byte>, done: seq<seq<byte>>)
    ensures ReversedNonEmpty([buffer] + done)
            == ReversedNonEmpty(done) + if buffer == [] then [] else [buffer]
  {
    assert ([buffer] + done)[1..] == done;
  }

  /** Yields the non-empty parts from last to first; only the very first yield is last. */
  method YieldReversed(parts: seq<seq<byte>>, lines: seq<ReverseLine>, ghost done: seq<seq<byte>>)
    returns (r: seq<ReverseLine>)
    requires lines == FlagFirst(ReversedNonEmpty(done))
    ensures r == FlagFirst(ReversedNonEmpty(parts + done))
  {
    r := lines;
    var i := |parts|;
    assert parts[i..] + done == done;
    while i > 0
      invariant 0 <= i <= |parts|
      invariant r == FlagFirst(ReversedNonEmpty(parts[i..] + done))
    {
      i := i - 1;
      assert (parts[i..] + done)[1..] == parts[i + 1..] + done;
      if parts[i] != [] {
        r := r + [ReverseLine(parts[i], r == [])];
      }
    }
    assert parts[0..] + done == parts + done;
  }

  // --------------------------------------------- both readers see one log

  /** The entries on a sequence of raw lines. */
  function EntriesOn(lines: seq<seq<byte>>): seq<LogEntry> {
    if lines == [] then [] else EntryOf(lines[0]) + EntriesOn(lines[1..])
  }

  function Reversed<T>(s: seq<T>): seq<T> {
    if s == [] then [] else Reversed(s[1..]) + [s[0]]
  }

  lemma {:induction false} EntriesOnConcat(a: seq<seq<byte>>, b: seq<seq<byte>>)
    ensures EntriesOn(a + b) == EntriesOn(a) + EntriesOn(b)
    decreases |a|
  {
    if a == [] {
      assert a + b == b;
    } else {
      assert (a + b)[1..] == a[1..] + b;
      EntriesOnConcat(a[1..], b);
    }
  }

  lemma {:induction false} ReversedConcat<T>(a: seq<T>, b: seq<T>)
    ensures Reversed(a + b) == Reversed(b) + Reversed(a)
    decreases |a|
  {
    if a == [] {
      assert a + b == b;
    } else {
      assert (a + b)[1..] == a[1..] + b;
      ReversedConcat(a[1..], b);
    }
  }

  lemma EntriesOnCons(raw: seq<byte>, lines: seq<seq<byte>>)
    ensures EntriesOn([raw] + lines) == EntryOf(raw) + EntriesOn(lines)
  {
    assert ([raw] + lines)[1..] == lines;
  }

  lemma EntryOfNewline(raw: seq<byte>)
    ensures EntryOf(raw + [NEWLINE]) == EntryOf(raw)
  {
    StripNewline(raw);
  }

  lemma EntriesStep(s: seq<byte>, n: nat)
    requires s != [] && n == LineLength(s) && s[n - 1] == NEWLINE
    ensures Entries(s) == EntryOf(s[..n - 1]) + Entries(s[n..])
  {
    EntryOfNewline(s[..n - 1]);
    assert s[..n] == s[..n - 1] + [NEWLINE];
  }

  lemma EmptyReads()
    ensures EntriesOn(Split([])) == Entries([])
  {
    var parts: seq<seq<byte>> := [[]];
    assert parts[1..] == [];
    assert EntriesOn(parts[1..]) == [];
    assert EntriesOn(parts) == EntryOf([]) + EntriesOn(parts[1..]);
  }

  lemma {:induction false} UnterminatedLineReads(s: seq<byte>)
    requires s != [] && Split(s) == [s] && LineLength(s) == |s|
    ensures EntriesOn(Split(s)) == Entries(s)
  {
    hide EntryOf;
    EntriesOnCons(s, []);
    assert [s] + [] == [s];
    assert s[..|s|] == s && s[|s|..] == [];
  }

  lemma {:induction false} SplitReadsTheSame(s: seq<byte>)
    ensures EntriesOn(Split(s)) == Entries(s)
    decreases |s|
  {
    hide EntryOf;
    hide Split;
    hide EntriesOn;
    if s == [] {
      EmptyReads();
    } else {
      var n := LineLength(s);
      SplitFirstLine(s);
      if s[n - 1] == NEWLINE {
        SplitReadsTheSame(s[n..]);
        EntriesOnCons(s[..n - 1], Split(s[n..]));
        EntriesStep(s, n);
      } else {
        UnterminatedLineReads(s);
      }
    }
  }

  lemma {:induction false} ReverseOrder(parts: seq<seq<byte>>)
    ensures EntriesOn(ReversedNonEmpty(parts)) == Reversed(EntriesOn(parts))
    decreases |parts|
  {
    if parts != [] {
      ReverseOrder(parts[1..]);
      var head: seq<seq<byte>> := if parts[0] == [] then [] else [parts[0]];
      EntriesOnConcat(ReversedNonEmpty(parts[1..]), head);
      assert EntriesOn(head) == EntryOf(parts[0]) by {
        if parts[0] != [] { assert head[1..] == []; }
      }
      ReversedConcat(EntryOf(parts[0]), EntriesOn(parts[1..]));
      assert Reversed(EntryOf(parts[0])) == EntryOf(parts[0]) by {
        if |EntryOf(parts[0])| == 1 { assert EntryOf(parts[0])[1..] == []; }
      }
    }
  }

  function RawLines(lines: seq<ReverseLine>): seq<seq<byte>> {
    seq(|lines|, i requires 0 <= i < |lines| => lines[i].raw)
  }

  /** The reverse reader's lines hold the forward scan's entries, last first. */
  lemma ReverseReaderAgrees(s: seq<byte>)
    ensures EntriesOn(RawLines(FlagFirst(ReversedNonEmpty(Split(s))))) == Reversed(Entries(s))
  {
    SplitReadsTheSame(s);
    ReverseOrder(Split(s));
    assert RawLines(FlagFirst(ReversedNonEmpty(Split(s)))) == ReversedNonEmpty(Split(s));
  }

  lemma {:induction false} ReversedFirst<T>(s: seq<T>)
    requires s != []
    ensures Reversed(s) != [] && Reversed(s)[0] == s[|s| - 1]
    decreases |s|
  {
    if |s| > 1 {
      ReversedFirst(s[1..]);
    }
  }

  function LastSeq(es: seq<LogEntry>): int {
    if es == [] then 0 else es[|es| - 1].seqNo
  }

  function FirstSeq(es: seq<LogEntry>): int {
    if es == [] then 0 else es[0].seqNo
  }

  function FirstNonZeroSeq(es: seq<LogEntry>): int {
    if es == [] then 0 else if es[0].seqNo != 0 then es[0].seqNo else FirstNonZeroSeq(es[1..])
  }

  /** Sequence numbers rise strictly in reading order. */
  predicate Increasing(es: seq<LogEntry>) {
    forall i, j :: 0 <= i < j < |es| ==> es[i].seqNo < es[j].seqNo
  }

  /** The newest sequence in a file, read from its end: the last entry of a forward scan. */
  method LatestSeqFromHandle(content: seq<byte>, chunkSize: nat) returns (latest: int)
    requires chunkSize >= 1
    ensures latest == LastSeq(Entries(content))
  {
    hide Entries;
    hide ParseEntry;
    var lines := IterLinesReverse(content, chunkSize);
    ReverseReaderAgrees(content);
    var i := 0;
    while i < |lines|
      invariant 0 <= i <= |lines|
      invariant EntriesOn(RawLines(lines)[i..]) == Reversed(Entries(content))
    {
      assert RawLines(lines)[i..][0] == lines[i].raw;
      assert RawLines(lines)[i..][1..] == RawLines(lines)[i + 1..];
      match ParseEntry(lines[i].raw) {
        case Some(e) =>
          assert Reversed(Entries(content))[0] == e;
          if Entries(content) != [] { ReversedFirst(Entries(content)); }
          return e.seqNo;
        case None =>
      }
      i := i + 1;
    }
    if Entries(content) != [] { ReversedFirst(Entries(content)); }
    return 0;
  }

  method FirstSeqForFile(content: seq<byte>) returns (first: int)
    ensures first == FirstSeq(Entries(content))
  {
    var rest := content;
    while rest != []
      invariant Entries(rest) == Entries(content)
      decreases |rest|
    {
      var n := LineLength(rest);
      match ParseEntry(rest[..n]) {
        case Some(e) => return e.seqNo;
        case None =>
      }
      rest := rest[n..];
    }
    return 0;
  }

  /** First and last sequence of a file; both are zero for a file without entries. */
  method SeqBoundsForFile(content: seq<byte>, chunkSize: nat) returns (first: int, last: int)
    requires chunkSize >= 1
    ensures first == FirstSeq(Entries(content))
    ensures last == if first == 0 then 0 else LastSeq(Entries(content))
  {
    first := FirstSeqForFile(content);
    if first == 0 {
      return 0, 0;
    }
    last := LatestSeqFromHandle(content, chunkSize);
  }

  /** One forward pass for both bounds, as segment repair scans a file. */
  method SeqRangeForFile(content: seq<byte>) returns (first: int, last: int)
    ensures first == FirstNonZeroSeq(Entries(content)) && last == LastSeq(Entries(content))
  {
    hide EntryOf;
    first, last := 0, 0;
    var rest := content;
    while rest != []
      invariant (if first != 0 then first else FirstNonZeroSeq(Entries(rest))) == FirstNonZeroSeq(Entries(content))
      invariant (if Entries(rest) == [] then last else LastSeq(Entries(rest))) == LastSeq(Entries(content))
      decreases |rest|
    {
      var n := LineLength(rest);
      RangeStep(rest, n);
      match ParseEntry(rest[..n]) {
        case Some(e) =>
          if first == 0 {
            first := e.seqNo;
          }
          last := e.seqNo;
        case None =>
      }
      rest := rest[n..];
    }
  }

  lemma RangeStep(rest: seq<byte>, n: nat)
    requires rest != [] && n == LineLength(rest)
    ensures ParseEntry(rest[..n]).None? ==> Entries(rest) == Entries(rest[n..])
    ensures ParseEntry(rest[..n]).Some? ==>
              var e, es := ParseEntry(rest[..n]).value, Entries(rest[n..]);
              && Entries(rest) == [e] + es
              && FirstNonZeroSeq(Entries(rest)) == (if e.seqNo != 0 then e.seqNo else FirstNonZeroSeq(es))
              && LastSeq(Entries(rest)) == (if es == [] then e.seqNo else LastSeq(es))
  {
    hide ParseEntry;
    if ParseEntry(rest[..n]).Some? {
      var e, es := ParseEntry(rest[..n]).value, Entries(rest[n..]);
      assert ([e] + es)[1..] == es;
    } else {
      assert [] + Entries(rest[n..]) == Entries(rest[n..]);
    }
  }
}
