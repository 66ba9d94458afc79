/** Completion events are appended at most once per event id. */
module Completions {
  import opened Json
  import opened Records

  predicate IsCompletion(event: Fields) {
    EventType(event) == "agent_completion"
  }

  /** A completion names its event id and its fingerprint. */
  predicate WellFormed(event: Fields) {
    match (Get(event, "event_id"), Get(event, "fingerprint"))
    case (Some(Str(_)), Some(Str(_))) => true
    case _ => false
  }

  function EventId(event: Fields): string {
    match Get(event, "event_id") { case Some(Str(id)) => id case _ => "" }
  }

  function ToMap(fields: Fields): map<string, Value> {
    match fields
    case NoFields => map[]
    case Field(k, v, rest) => map[k := v] + ToMap(rest)
  }

  /** The identity projection: every field but the timestamp. */
  function Canonical(event: Fields): map<string, Value> {
    ToMap(event) - {"ts"}
  }

  predicate SameCompletion(stored: Fields, event: Fields) {
    WellFormed(stored) && Canonical(stored) == Canonical(event)
  }

  predicate HasId(e: LogEntry, id: string) {
    IsCompletion(e.event) && Get(e.event, "event_id") == Some(Str(id))
  }

  /** Stored completions carrying the event's id, oldest first. */
  function MatchesIn(es: seq<LogEntry>, event: Fields): seq<LogEntry> {
    if es == [] then []
    else (if HasId(es[0], EventId(event)) then [es[0]] else []) + MatchesIn(es[1..], event)
  }

  /** The index lookup that precedes a completion append. */
  function LookupSpec(event: Fields): QuerySpec {
    QuerySpec(Some({"agent_completion"}), None, None, None, None, None, None, None, None, None,
              Some(Lower(EventId(event))), None)
  }

  /** The lower-cased text prefilter over nested values never hides a true match. */
  lemma PrefilterKeepsMatches(e: LogEntry, event: Fields)
    ensures HasId(e, EventId(event)) <==>
              Matches(e, LookupSpec(event)) && Get(e.event, "event_id") == Some(Str(EventId(event)))
  {
    if HasId(e, EventId(event)) {
      OwnTextIsFound(e.event, "event_id", EventId(event));
    }
  }

  lemma {:induction false} MapHolds(fields: Fields, key: string)
    ensures key in ToMap(fields) <==> Get(fields, key).Some?
    ensures key in ToMap(fields) ==> Get(fields, key) == Some(ToMap(fields)[key])
    decreases fields
  {
    if fields.Field? {
      MapHolds(fields.rest, key);
    }
  }

  lemma CanonicalHolds(fields: Fields, key: string)
    ensures key in Canonical(fields) <==> key != "ts" && Get(fields, key).Some?
    ensures key in Canonical(fields) ==> Get(fields, key) == Some(Canonical(fields)[key])
  {
    MapHolds(fields, key);
  }

  /** Two identity projections agree if and only if every field but the timestamp does. */
  lemma CanonicalIff(a: Fields, b: Fields)
    ensures Canonical(a) == Canonical(b) <==> forall key :: key != "ts" ==> Get(a, key) == Get(b, key)
  {
    hide Canonical;
    if Canonical(a) == Canonical(b) {
      forall key | key != "ts"
        ensures Get(a, key) == Get(b, key)
      {
        CanonicalHolds(a, key);
        CanonicalHolds(b, key);
      }
    } else {
      var key :| (key in Canonical(a)) != (key in Canonical(b))
                 || (key in Canonical(a) && key in Canonical(b) && Canonical(a)[key] != Canonical(b)[key]);
      CanonicalHolds(a, key);
      CanonicalHolds(b, key);
      assert key != "ts" && Get(a, key) != Get(b, key);
    }
  }

  /** A stored completion is the same one if and only if it names its id and fingerprint and
      every field but the timestamp reads the same in both. */
  lemma SameCompletionIff(stored: Fields, event: Fields)
    ensures SameCompletion(stored, event) <==>
              && (exists id :: Get(stored, "event_id") == Some(Str(id)))
              && (exists mark :: Get(stored, "fingerprint") == Some(Str(mark)))
              && forall key :: key != "ts" ==> Get(stored, key) == Get(event, key)
  {
    CanonicalIff(stored, event);
    hide Canonical;
    hide Get;
    if WellFormed(stored) {
      assert Get(stored, "event_id") == Some(Str(EventId(stored)));
      assert Get(stored, "fingerprint") == Some(Str(Get(stored, "fingerprint").value.text));
    }
  }
}
