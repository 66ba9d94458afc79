/** What a query's answer means: which entries of the log it holds, told by their own fields
    and plain comparisons. */
module Answers {
  import opened Json
  import opened Records
  import opened Lines
  import opened Query
  import opened Paging

  // ------------------------------------------------------------------- text

  /** Every string nested anywhere in a value. */
  function Texts(v: Value): set<string> {
    match v
    case Str(text) => {text}
    case List(items) => ItemTexts(items)
    case Dict(fields) => FieldTexts(fields)
    case _ => {}
  }

  function ItemTexts(items: Values): set<string> {
    match items
    case NoItems => {}
    case Item(head, tail) => Texts(head) + ItemTexts(tail)
  }

  function FieldTexts(fields: Fields): set<string> {
    match fields
    case NoFields => {}
    case Field(_, value, rest) => Texts(value) + FieldTexts(rest)
  }

  /** The needle stands at this place of the text, capitals of the text read as small letters. */
  predicate StandsAt(text: string, i: nat, needle: string) {
    && i + |needle| <= |text|
    && forall j | 0 <= j < |needle| ::
         needle[j] == if 'A' <= text[i + j] <= 'Z' then text[i + j] - 'A' + 'a' else text[i + j]
  }

  predicate Mentions(text: string, needle: string) {
    exists i | 0 <= i <= |text| :: StandsAt(text, i, needle)
  }

  lemma {:induction false} LowerAt(text: string)
    ensures |Lower(text)| == |text|
    ensures forall i :: 0 <= i < |text| ==>
              Lower(text)[i] == if 'A' <= text[i] <= 'Z' then text[i] - 'A' + 'a' else text[i]
  {
    if text != [] {
      LowerAt(text[1..]);
    }
  }

  lemma {:induction false} ContainsIff(hay: string, needle: string)
    ensures Contains(hay, needle) <==> exists i :: 0 <= i <= |hay| && needle <= hay[i..]
    decreases |hay|
  {
    assert hay[0..] == hay;
    if hay != [] {
      ContainsIff(hay[1..], needle);
      assert forall i :: 1 <= i <= |hay| ==> hay[i..] == hay[1..][i - 1..];
      if i :| 0 <= i <= |hay| && needle <= hay[i..] {
        assert i > 0 ==> needle <= hay[1..][i - 1..];
      }
      if i :| 0 <= i <= |hay[1..]| && needle <= hay[1..][i..] {
        assert needle <= hay[i + 1..];
      }
    }
  }

  lemma MentionsIff(text: string, needle: string)
    ensures Contains(Lower(text), needle) <==> Mentions(text, needle)
  {
    LowerAt(text);
    ContainsIff(Lower(text), needle);
    hide Lower;
    hide Contains;
    var hay := Lower(text);
    forall i | 0 <= i <= |text|
      ensures needle <= hay[i..] <==> StandsAt(text, i, needle)
    {
      if needle <= hay[i..] {
        assert forall j :: 0 <= j < |needle| ==> needle[j] == hay[i..][j] == hay[i + j];
      }
      if StandsAt(text, i, needle) {
        assert forall j :: 0 <= j < |needle| ==> hay[i..][j] == hay[i + j];
        assert hay[i..][..|needle|] == needle;
      }
    }
  }

  lemma {:induction false} TextIff(v: Value, needle: string)
    ensures ContainsText(v, needle) <==> exists t :: t in Texts(v) && Mentions(t, needle)
    decreases v, 1
  {
    match v
    case Str(text) => MentionsIff(text, needle);
    case List(items) => ItemTextIff(items, needle);
    case Dict(fields) => FieldTextIff(fields, needle);
    case _ =>
  }

  lemma {:induction false} ItemTextIff(items: Values, needle: string)
    ensures ItemsContainText(items, needle) <==> exists t :: t in ItemTexts(items) && Mentions(t, needle)
    decreases items, 0
  {
    if items.Item? {
      TextIff(items.head, needle);
      ItemTextIff(items.tail, needle);
    }
  }

  /** The text search finds an event if and only if some string nested in it mentions the text. */
  lemma {:induction false} FieldTextIff(fields: Fields, needle: string)
    ensures FieldsContainText(fields, needle) <==> exists t :: t in FieldTexts(fields) && Mentions(t, needle)
    decreases fields, 0
  {
    if fields.Field? {
      TextIff(fields.value, needle);
      FieldTextIff(fields.rest, needle);
    }
  }

  // ---------------------------------------------------------------- criteria

  /** The field holds exactly this string. */
  predicate Holds(event: Fields, key: string, text: string) {
    Get(event, key) == Some(Str(text))
  }

  ghost predicate TypedAs(event: Fields, types: set<string>) {
    (exists t :: t in types && Holds(event, "type", t))
    || ("" in types && forall t :: !Holds(event, "type", t))
  }

  /** An error is present: there is one, and it is not null, empty text, object or list. */
  predicate Failed(event: Fields) {
    match Get(event, "error")
    case None => false
    case Some(Null) => false
    case Some(Str(text)) => text != ""
    case Some(List(items)) => items != NoItems
    case Some(Dict(fields)) => fields != NoFields
    case Some(_) => true
  }

  lemma {:induction false} SelectMembers(all: seq<LogEntry>, spec: QuerySpec, e: LogEntry)
    ensures e in Select(all, spec) <==> e in all && Wanted(e, spec)
    decreases |all|
  {
    hide Wanted;
    if all != [] {
      SelectMembers(all[1..], spec, e);
      assert all == [all[0]] + all[1..];
    }
  }

  lemma TypedIff(event: Fields, types: set<string>)
    ensures EventType(event) in types <==> TypedAs(event, types)
  {
    if Holds(event, "type", EventType(event)) {
      assert EventType(event) in types ==> TypedAs(event, types);
    }
  }

  /** The entry is asked for: within the sequence bounds and the closed time window, of a type
      asked for, with the tool name, tool call, sub-agent, runner and role asked for in its own
      fields, mentioning the text in some nested string, and failed or not as asked. */
  ghost predicate AskedFor(e: LogEntry, spec: QuerySpec) {
    && (spec.afterSeq.Some? ==> spec.afterSeq.value <= e.seqNo)
    && (spec.beforeSeq.Some? ==> e.seqNo <= spec.beforeSeq.value)
    && (spec.eventTypes.Some? ==> TypedAs(e.event, spec.eventTypes.value))
    && (spec.toolName.Some? ==> Holds(e.event, "tool_name", spec.toolName.value))
    && (spec.toolCallId.Some? ==> Holds(e.event, "tool_call_id", spec.toolCallId.value))
    && (spec.subAgentId.Some? ==> Holds(e.event, "sub_agent_id", spec.subAgentId.value))
    && (spec.runnerId.Some? ==> Holds(e.event, "runner_id", spec.runnerId.value))
    && (spec.role.Some? ==> Holds(e.event, "role", spec.role.value))
    && (spec.afterTs.Some? ==> spec.afterTs.value <= e.timestamp)
    && (spec.beforeTs.Some? ==> e.timestamp <= spec.beforeTs.value)
    && (spec.containsText.Some? ==> exists t :: t in FieldTexts(e.event) && Mentions(t, spec.containsText.value))
    && (spec.hasError.Some? ==> Failed(e.event) == spec.hasError.value)
  }

  lemma FailedIff(event: Fields)
    ensures EventHasError(event) <==> Failed(event)
  {
  }

  lemma WantedIff(e: LogEntry, spec: QuerySpec)
    ensures Wanted(e, spec) <==> AskedFor(e, spec)
  {
    if spec.eventTypes.Some? {
      TypedIff(e.event, spec.eventTypes.value);
    }
    if spec.containsText.Some? {
      FieldTextIff(e.event, spec.containsText.value);
    }
    FailedIff(e.event);
    hide FieldsContainText;
    hide FieldTexts;
    hide Mentions;
    hide TypedAs;
    hide EventType;
    hide EventHasError;
    hide Failed;
    hide Get;
  }

  /** The whole answer, in either order and at any page size, holds exactly the log's entries
      that are asked for, each once, in rising order or falling. */
  lemma AnswerIff(all: seq<LogEntry>, spec: QuerySpec, order: Order, limit: int, e: LogEntry)
    requires Increasing(all) && limit > 0
    ensures e in AllPages(all, spec, order, limit, None) <==> e in all && AskedFor(e, spec)
    ensures forall i, j | 0 <= i < j < |AllPages(all, spec, order, limit, None)| ::
              var answer := AllPages(all, spec, order, limit, None);
              if order.Asc? then answer[i].seqNo < answer[j].seqNo else answer[i].seqNo > answer[j].seqNo
  {
    SelectMembers(all, spec, e);
    SelectIncreases(all, spec);
    ReversedMembers(Select(all, spec));
    WantedIff(e, spec);
    hide Select;
    hide Reversed;
    hide AskedFor;
    hide Wanted;
    var answer := AllPages(all, spec, order, limit, None);
    assert answer == Ordered(Select(all, spec), order);
    hide AllPages;
  }

  const EVERYTHING := QuerySpec(None, None, None, None, None, None, None, None, None, None, None, None)

  /** Each criterion on its own. */
  lemma OneCriterion(all: seq<LogEntry>, order: Order, limit: int, e: LogEntry, text: string, n: int,
                     types: set<string>, failed: bool)
    requires Increasing(all) && limit > 0 && e in all
    ensures e in AllPages(all, EVERYTHING, order, limit, None)
    ensures e in AllPages(all, EVERYTHING.(eventTypes := Some(types)), order, limit, None) <==> TypedAs(e.event, types)
    ensures e in AllPages(all, EVERYTHING.(toolName := Some(text)), order, limit, None)
            <==> Get(e.event, "tool_name") == Some(Str(text))
    ensures e in AllPages(all, EVERYTHING.(toolCallId := Some(text)), order, limit, None)
            <==> Get(e.event, "tool_call_id") == Some(Str(text))
    ensures e in AllPages(all, EVERYTHING.(subAgentId := Some(text)), order, limit, None)
            <==> Get(e.event, "sub_agent_id") == Some(Str(text))
    ensures e in AllPages(all, EVERYTHING.(runnerId := Some(text)), order, limit, None)
            <==> Get(e.event, "runner_id") == Some(Str(text))
    ensures e in AllPages(all, EVERYTHING.(role := Some(text)), order, limit, None)
            <==> Get(e.event, "role") == Some(Str(text))
    ensures e in AllPages(all, EVERYTHING.(afterSeq := Some(n)), order, limit, None) <==> n <= e.seqNo
    ensures e in AllPages(all, EVERYTHING.(beforeSeq := Some(n)), order, limit, None) <==> e.seqNo <= n
    ensures e in AllPages(all, EVERYTHING.(afterTs := Some(n)), order, limit, None) <==> n <= e.timestamp
    ensures e in AllPages(all, EVERYTHING.(beforeTs := Some(n)), order, limit, None) <==> e.timestamp <= n
    ensures e in AllPages(all, EVERYTHING.(containsText := Some(text)), order, limit, None)
            <==> exists t :: t in FieldTexts(e.event) && Mentions(t, text)
    ensures e in AllPages(all, EVERYTHING.(hasError := Some(failed)), order, limit, None) <==> Failed(e.event) == failed
  {
    hide AllPages;
    hide TypedAs;
    hide Mentions;
    hide FieldTexts;
    hide Failed;
    AnswerIff(all, EVERYTHING, order, limit, e);
    AnswerIff(all, EVERYTHING.(eventTypes := Some(types)), order, limit, e);
    AnswerIff(all, EVERYTHING.(toolName := Some(text)), order, limit, e);
    AnswerIff(all, EVERYTHING.(toolCallId := Some(text)), order, limit, e);
    AnswerIff(all, EVERYTHING.(subAgentId := Some(text)), order, limit, e);
    AnswerIff(all, EVERYTHING.(runnerId := Some(text)), order, limit, e);
    AnswerIff(all, EVERYTHING.(role := Some(text)), order, limit, e);
    AnswerIff(all, EVERYTHING.(afterSeq := Some(n)), order, limit, e);
    AnswerIff(all, EVERYTHING.(beforeSeq := Some(n)), order, limit, e);
    AnswerIff(all, EVERYTHING.(afterTs := Some(n)), order, limit, e);
    AnswerIff(all, EVERYTHING.(beforeTs := Some(n)), order, limit, e);
    AnswerIff(all, EVERYTHING.(containsText := Some(text)), order, limit, e);
    AnswerIff(all, EVERYTHING.(hasError := Some(failed)), order, limit, e);
  }
}
