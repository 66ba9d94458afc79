/** Durable session-log records: the line codec and the per-entry query filter. */
module Records {
  import opened Json

  /** One durable entry; `event` holds the fields of the event object. */
  datatype LogEntry = LogEntry(seqNo: int, timestamp: int, event: Fields)

  function Envelope(e: LogEntry): Value {
    Dict(Field("seq", Num(e.seqNo), Field("timestamp", Num(e.timestamp), Field("event", Dict(e.event), NoFields))))
  }

  /** The bytes an append writes: the encoded envelope and its newline. */
  function EncodeEntry(e: LogEntry): seq<byte> {
    Encode(Envelope(e)) + [NEWLINE]
  }

  function EncodeAll(es: seq<LogEntry>): seq<byte> {
    if es == [] then [] else EncodeEntry(es[0]) + EncodeAll(es[1..])
  }

  // ------------------------------------------------------------------- lines

  predicate IsSpace(b: byte) {
    b == 32 || 9 <= b <= 13
  }

  function StripLeft(s: seq<byte>): seq<byte> {
    if s != [] && IsSpace(s[0]) then StripLeft(s[1..]) else s
  }

  function StripRight(s: seq<byte>): seq<byte> {
    if s != [] && IsSpace(s[|s| - 1]) then StripRight(s[..|s| - 1]) else s
  }

  function Strip(s: seq<byte>): seq<byte> {
    StripRight(StripLeft(s))
  }

  /** What one physical line holds. */
  datatype Line = Blank | Torn | Malformed | Entry(entry: LogEntry)

  function ReadEnvelope(v: Value): Line {
    if !v.Dict? then Malformed
    else
      match (Get(v.fields, "event"), Get(v.fields, "seq"), Get(v.fields, "timestamp"))
      case (Some(Dict(event)), Some(Num(n)), Some(Num(ts))) => Entry(LogEntry(n, ts, event))
      case _ => Malformed
  }

  function ParseLine(raw: seq<byte>): Line {
    var stripped := Strip(raw);
    if stripped == [] then Blank
    else
      match ParseValue(stripped)
      case Bad => Torn
      case Parsed(v, rest) => if rest == [] then ReadEnvelope(v) else Torn
  }

  /** The strict reader additionally refuses repeated keys and a sequence number that is
      not positive. */
  function ParseStrict(raw: seq<byte>): Line {
    var stripped := Strip(raw);
    if stripped == [] then Blank
    else
      match ParseValue(stripped)
      case Bad => Torn
      case Parsed(v, rest) =>
        if rest != [] then Torn
        else if !UniqueKeys(v) then Malformed
        else
          var line := ReadEnvelope(v);
          if line.Entry? && line.entry.seqNo <= 0 then Malformed else line
  }

  /** What an append writes: a positive sequence and an in-memory event. */
  predicate Writable(e: LogEntry) {
    e.seqNo > 0 && FieldsUnique(e.event)
  }

  /** The lenient reader skips every line that is not an entry. */
  function ParseEntry(raw: seq<byte>): Option<LogEntry> {
    var line := ParseLine(raw);
    if line.Entry? then Some(line.entry) else None
  }

  // ------------------------------------------------------- stripping lemmas

  lemma {:induction false} StripLeftNewline(s: seq<byte>)
    ensures StripLeft(s + [NEWLINE]) == if StripLeft(s) == [] then [] else StripLeft(s) + [NEWLINE]
    decreases |s|
  {
    if s == [] {
      assert s + [NEWLINE] == [NEWLINE];
      assert [NEWLINE][1..] == [];
    } else {
      assert (s + [NEWLINE])[1..] == s[1..] + [NEWLINE];
      if IsSpace(s[0]) {
        StripLeftNewline(s[1..]);
      }
    }
  }

  /** A trailing newline never changes what a line says. */
  lemma StripNewline(s: seq<byte>)
    ensures Strip(s + [NEWLINE]) == Strip(s)
    ensures ParseLine(s + [NEWLINE]) == ParseLine(s)
  {
    StripLeftNewline(s);
    var l := StripLeft(s);
    if l != [] {
      assert (l + [NEWLINE])[..|l + [NEWLINE]| - 1] == l;
    }
  }

  lemma EnvelopeEnds(e: LogEntry)
    ensures |Encode(Envelope(e))| >= 2
    ensures Encode(Envelope(e))[0] == OPEN_OBJECT
    ensures Encode(Envelope(e))[|Encode(Envelope(e))| - 1] == CLOSE_OBJECT
  {
    DictEnds(Envelope(e).fields);
  }

  lemma DictEnds(fields: Fields)
    ensures |Encode(Dict(fields))| >= 2
    ensures Encode(Dict(fields))[0] == OPEN_OBJECT
    ensures Encode(Dict(fields))[|Encode(Dict(fields))| - 1] == CLOSE_OBJECT
  {
    hide EncodeFields;
    FieldsHaveNoNewline(fields);
  }

  lemma StripPrefixOfEnvelope(e: LogEntry, k: nat)
    requires 0 < k <= |Encode(Envelope(e))|
    ensures StripLeft(Encode(Envelope(e))[..k]) == Encode(Envelope(e))[..k]
  {
    hide Encode;
    hide Envelope;
    EnvelopeEnds(e);
  }

  /** The parser consumes exactly the written record. */
  lemma EnvelopeParses(e: LogEntry)
    ensures Strip(Encode(Envelope(e))) == Encode(Envelope(e)) != []
    ensures ParseValue(Encode(Envelope(e))) == Parsed(Envelope(e), [])
  {
    hide Encode;
    hide Envelope;
    hide ParseValue;
    var s := Encode(Envelope(e));
    EnvelopeEnds(e);
    StripPrefixOfEnvelope(e, |s|);
    assert s[..|s|] == s;
    RoundTrip(Envelope(e), []);
    assert s + [] == s;
  }

  lemma EnvelopeReads(e: LogEntry)
    ensures ReadEnvelope(Envelope(e)) == Entry(e)
  {
    var event := Field("event", Dict(e.event), NoFields);
    var timestamp := Field("timestamp", Num(e.timestamp), event);
    assert Get(event, "event") == Some(Dict(e.event)) && Get(event, "seq") == None && Get(event, "timestamp") == None;
    assert Get(timestamp, "timestamp") == Some(Num(e.timestamp)) && Get(timestamp, "seq") == None;
    var fields := Field("seq", Num(e.seqNo), timestamp);
    assert Envelope(e) == Dict(fields);
    assert Get(timestamp, "event") == Some(Dict(e.event));
    assert Get(fields, "seq") == Some(Num(e.seqNo));
    assert Get(fields, "timestamp") == Some(Num(e.timestamp));
    assert Get(fields, "event") == Some(Dict(e.event));
  }

  /** Reading back a written record yields the entry, with or without its newline. */
  lemma EntryRoundTrip(e: LogEntry)
    ensures ParseLine(Encode(Envelope(e))) == Entry(e)
    ensures ParseLine(EncodeEntry(e)) == Entry(e)
  {
    hide Encode;
    hide Envelope;
    hide ParseValue;
    hide Strip;
    hide ReadEnvelope;
    EnvelopeParses(e);
    EnvelopeReads(e);
    StripNewline(Encode(Envelope(e)));
  }

  lemma EnvelopeUnique(e: LogEntry)
    requires FieldsUnique(e.event)
    ensures UniqueKeys(Envelope(e))
  {
    var event := Field("event", Dict(e.event), NoFields);
    var timestamp := Field("timestamp", Num(e.timestamp), event);
    assert FieldsUnique(event);
    assert Get(event, "timestamp") == None && Get(event, "seq") == None;
    assert Get(timestamp, "seq") == None;
    assert FieldsUnique(timestamp);
  }

  /** The strict reader reads back every record an append writes. */
  lemma StrictRoundTrip(e: LogEntry)
    requires Writable(e)
    ensures ParseStrict(Encode(Envelope(e))) == Entry(e)
    ensures ParseStrict(EncodeEntry(e)) == Entry(e)
  {
    hide Encode;
    hide Envelope;
    hide ParseValue;
    hide Strip;
    hide ReadEnvelope;
    hide UniqueKeys;
    EnvelopeParses(e);
    EnvelopeReads(e);
    EnvelopeUnique(e);
    StripNewline(Encode(Envelope(e)));
  }

  /** Both readers call the same lines torn and blank. */
  lemma StrictAgrees(raw: seq<byte>)
    ensures ParseStrict(raw).Torn? == ParseLine(raw).Torn?
    ensures ParseStrict(raw).Blank? == ParseLine(raw).Blank?
    ensures ParseStrict(raw).Entry? ==> ParseStrict(raw) == ParseLine(raw)
    ensures ParseStrict(raw).Entry? <==>
              && ParseLine(raw).Entry? && 0 < ParseLine(raw).entry.seqNo
              && exists v :: ParseValue(Strip(raw)) == Parsed(v, []) && UniqueKeys(v)
  {
  }

  lemma StripRightIsPrefix(s: seq<byte>)
    ensures |StripRight(s)| <= |s| && StripRight(s) == s[..|StripRight(s)|]
    ensures s != [] && !IsSpace(s[0]) ==> StripRight(s) != []
  {
  }

  /** A proper prefix of a record reads as torn, however much trailing space it has. */
  lemma PartialRecordIsTorn(e: LogEntry, k: nat)
    requires 0 < k < |Encode(Envelope(e))|
    ensures ParseLine(Encode(Envelope(e))[..k]) == Torn
  {
    var s := Encode(Envelope(e));
    EnvelopeEnds(e);
    StripPrefixOfEnvelope(e, k);
    StripRightIsPrefix(s[..k]);
    var m := |StripRight(s[..k])|;
    assert s[..k][..m] == s[..m];
    NoProperPrefixParses(Envelope(e), m);
  }

  // -------------------------------------------------------------- the filter

  function LowerChar(c: char): char {
    if 'A' <= c <= 'Z' then (c as int + 32) as char else c
  }

  function Lower(text: string): string {
    if text == [] then [] else [LowerChar(text[0])] + Lower(text[1..])
  }

  predicate Contains(hay: string, needle: string) {
    needle <= hay || (hay != [] && Contains(hay[1..], needle))
  }

  /** Case-insensitive text search through nested objects and lists. */
  predicate ContainsText(v: Value, needle: string) {
    match v
    case Str(text) => Contains(Lower(text), needle)
    case List(items) => ItemsContainText(items, needle)
    case Dict(fields) => FieldsContainText(fields, needle)
    case _ => false
  }

  predicate ItemsContainText(items: Values, needle: string) {
    match items
    case NoItems => false
    case Item(head, tail) => ContainsText(head, needle) || ItemsContainText(tail, needle)
  }

  predicate FieldsContainText(fields: Fields, needle: string) {
    match fields
    case NoFields => false
    case Field(_, value, rest) => ContainsText(value, needle) || FieldsContainText(rest, needle)
  }

  predicate EventHasError(event: Fields) {
    Get(event, "error") !in {None, Some(Null), Some(Str("")), Some(Dict(NoFields)), Some(List(NoItems))}
  }

  function EventType(event: Fields): string {
    match Get(event, "type") { case Some(Str(t)) => t case _ => "" }
  }

  datatype QuerySpec = QuerySpec(
    eventTypes: Option<set<string>>,
    toolName: Option<string>,
    toolCallId: Option<string>,
    subAgentId: Option<string>,
    runnerId: Option<string>,
    role: Option<string>,
    afterSeq: Option<int>,
    beforeSeq: Option<int>,
    afterTs: Option<int>,
    beforeTs: Option<int>,
    containsText: Option<string>,
    hasError: Option<bool>)

  predicate FieldIs(event: Fields, key: string, wanted: Option<string>) {
    wanted.None? || Get(event, key) == Some(Str(wanted.value))
  }

  /** The per-entry part of a query; sequence bounds are applied by the readers. */
  predicate Matches(e: LogEntry, spec: QuerySpec) {
    && (spec.eventTypes.Some? ==> EventType(e.event) in spec.eventTypes.value)
    && FieldIs(e.event, "tool_name", spec.toolName)
    && FieldIs(e.event, "tool_call_id", spec.toolCallId)
    && FieldIs(e.event, "sub_agent_id", spec.subAgentId)
    && FieldIs(e.event, "runner_id", spec.runnerId)
    && FieldIs(e.event, "role", spec.role)
    && (spec.afterTs.Some? ==> e.timestamp >= spec.afterTs.value)
    && (spec.beforeTs.Some? ==> e.timestamp <= spec.beforeTs.value)
    && (spec.containsText.Some? ==> FieldsContainText(e.event, spec.containsText.value))
    && (spec.hasError.Some? ==> EventHasError(e.event) == spec.hasError.value)
  }

  /** A field's own text is found by searching the event for it in lower case. */
  lemma {:induction false} OwnTextIsFound(event: Fields, key: string, text: string)
    requires Get(event, key) == Some(Str(text))
    ensures FieldsContainText(event, Lower(text))
    decreases event
  {
    match event
    case Field(k, v, rest) =>
      if Get(rest, key).Some? {
        OwnTextIsFound(rest, key, text);
      } else {
        assert Contains(Lower(text), Lower(text));
      }
  }
}
