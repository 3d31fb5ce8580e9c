/** The filter `find` applies to each stored document: three recognised
    dotted field paths, each with one recognised operator, combined with AND.
    Any other path or operator is ignored. */
module Query {
  import opened PyValues

  const DaysPath: string := "schedule_details.days"
  const StartPath: string := "schedule_details.start_time"
  const EndPath: string := "schedule_details.end_time"

  /** The `start_time` stand-in when a document has none. */
  const DefaultStart: string := "00:00"
  /** The `end_time` stand-in when a document has none. */
  const DefaultEnd: string := "23:59"

  /** A `find` query: its (field path, condition) items in dict order. */
  type Query = seq<(string, Value)>

  /** Whether one query item keeps `doc`, in the order the source evaluates
      it: operator test, operand, document field, then the comparison. */
  function CondResult(doc: Document, path: string, condition: Value): Result<bool> {
    if path == DaysPath then
      match HasOperator(condition, "$in")
      case Raised(e) => Raised(e)
      case Ok(present) =>
        if !present then Ok(true)
        else match Operand(condition, "$in")
          case Raised(e) => Raised(e)
          case Ok(targets) =>
            match ScheduleField(doc, "days", List([]))
            case Raised(e) => Raised(e)
            case Ok(days) => AnyIn(targets, days)
    else if path == StartPath then
      match HasOperator(condition, "$gte")
      case Raised(e) => Raised(e)
      case Ok(present) =>
        if !present then Ok(true)
        else match ScheduleField(doc, "start_time", Str(DefaultStart))
          case Raised(e) => Raised(e)
          case Ok(start) =>
            match Operand(condition, "$gte")
            case Raised(e) => Raised(e)
            case Ok(bound) =>
              match Less(start, bound)
              case Raised(e) => Raised(e)
              case Ok(before) => Ok(!before)
    else if path == EndPath then
      match HasOperator(condition, "$lte")
      case Raised(e) => Raised(e)
      case Ok(present) =>
        if !present then Ok(true)
        else match ScheduleField(doc, "end_time", Str(DefaultEnd))
          case Raised(e) => Raised(e)
          case Ok(end) =>
            match Operand(condition, "$lte")
            case Raised(e) => Raised(e)
            case Ok(bound) =>
              match Less(bound, end)
              case Raised(e) => Raised(e)
              case Ok(after) => Ok(!after)
    else Ok(true)
  }

  /** The per-document loop over the query items: the first item that
      rejects the document stops it, the first exception escapes. */
  function MatchQuery(doc: Document, q: Query): Result<bool> {
    if q == [] then Ok(true)
    else match CondResult(doc, q[0].0, q[0].1)
      case Raised(e) => Raised(e)
      case Ok(keep) => if keep then MatchQuery(doc, q[1..]) else Ok(false)
  }

  // ---------------------------------------------------------------------
  // The intended reading of a query, independent of evaluation order

  /** The document's schedule fields, read as the application writes them. */
  function Schedule(doc: Document): map<string, Value> {
    if "schedule_details" in doc && doc["schedule_details"].Obj?
    then doc["schedule_details"].fields else map[]
  }

  function DocDays(doc: Document): seq<Value> {
    var m := Schedule(doc);
    if "days" in m && m["days"].List? then m["days"].items else []
  }

  function DocStart(doc: Document): string {
    var m := Schedule(doc);
    if "start_time" in m && m["start_time"].Str? then m["start_time"].s else DefaultStart
  }

  function DocEnd(doc: Document): string {
    var m := Schedule(doc);
    if "end_time" in m && m["end_time"].Str? then m["end_time"].s else DefaultEnd
  }

  /** `schedule_details`, if present, is a dict whose `field`, if present,
      satisfies `kind`. */
  predicate ScheduleHas(doc: Document, field: string, kind: Value -> bool) {
    "schedule_details" in doc ==>
      doc["schedule_details"].Obj? &&
      (field in doc["schedule_details"].fields ==> kind(doc["schedule_details"].fields[field]))
  }

  predicate IsList(v: Value) { v.List? }
  predicate IsStr(v: Value) { v.Str? }

  /** A query item whose recognised operator, if any, has an operand of the
      expected shape, on a document whose corresponding field does too:
      the item then cannot raise. */
  predicate Typed(doc: Document, path: string, condition: Value) {
    && (path == DaysPath ==>
          condition.Obj? &&
          ("$in" in condition.fields ==>
             condition.fields["$in"].List? && ScheduleHas(doc, "days", IsList)))
    && (path == StartPath ==>
          condition.Obj? &&
          ("$gte" in condition.fields ==>
             condition.fields["$gte"].Str? && ScheduleHas(doc, "start_time", IsStr)))
    && (path == EndPath ==>
          condition.Obj? &&
          ("$lte" in condition.fields ==>
             condition.fields["$lte"].Str? && ScheduleHas(doc, "end_time", IsStr)))
  }

  /** What one query item asks of a document: its days meet the target
      days, its start time is not before the bound, its end time is not
      after the bound. Anything else asks nothing. */
  predicate Holds(doc: Document, path: string, condition: Value) {
    if path == DaysPath && condition.Obj? && "$in" in condition.fields
       && condition.fields["$in"].List? then
      exists t :: t in condition.fields["$in"].items && t in DocDays(doc)
    else if path == StartPath && condition.Obj? && "$gte" in condition.fields
       && condition.fields["$gte"].Str? then
      !StrLt(DocStart(doc), condition.fields["$gte"].s)
    else if path == EndPath && condition.Obj? && "$lte" in condition.fields
       && condition.fields["$lte"].Str? then
      !StrLt(condition.fields["$lte"].s, DocEnd(doc))
    else true
  }

  predicate QueryTyped(doc: Document, q: Query) {
    forall i :: 0 <= i < |q| ==> Typed(doc, q[i].0, q[i].1)
  }

  /** AND over all the items of the query. */
  predicate Satisfies(doc: Document, q: Query) {
    forall i :: 0 <= i < |q| ==> Holds(doc, q[i].0, q[i].1)
  }

  /** A well-typed item evaluates, without raising, to what it asks. */
  lemma CondResultTyped(doc: Document, path: string, condition: Value)
    requires Typed(doc, path, condition)
    ensures CondResult(doc, path, condition) == Ok(Holds(doc, path, condition))
  {
    if path == DaysPath && "$in" in condition.fields {
      AnyOfLists(condition.fields["$in"].items, DocDays(doc));
    }
  }

  /** On a well-typed query the source's loop with its early exit computes
      the AND of all items, whatever their order. */
  lemma {:induction false} MatchQueryTyped(doc: Document, q: Query)
    requires QueryTyped(doc, q)
    ensures MatchQuery(doc, q) == Ok(Satisfies(doc, q))
  {
    if q != [] {
      CondResultTyped(doc, q[0].0, q[0].1);
      assert QueryTyped(doc, q[1..]) by {
        forall i | 0 <= i < |q[1..]| ensures Typed(doc, q[1..][i].0, q[1..][i].1) {
          assert q[1..][i] == q[i + 1];
        }
      }
      MatchQueryTyped(doc, q[1..]);
      assert Satisfies(doc, q) <==> Holds(doc, q[0].0, q[0].1) && Satisfies(doc, q[1..]) by {
        if Holds(doc, q[0].0, q[0].1) && Satisfies(doc, q[1..]) {
          forall i | 0 <= i < |q| ensures Holds(doc, q[i].0, q[i].1) {
            if i > 0 { assert q[i] == q[1..][i - 1]; }
          }
        }
        if Satisfies(doc, q) {
          forall i | 0 <= i < |q[1..]| ensures Holds(doc, q[1..][i].0, q[1..][i].1) {
            assert q[1..][i] == q[i + 1];
          }
        }
      }
    }
  }

  /** A query item with an unrecognised field path never changes the
      outcome, wherever it stands in the query. */
  lemma {:induction false} UnrecognisedPathIgnored(doc: Document, q1: Query, path: string, condition: Value, q2: Query)
    requires path != DaysPath && path != StartPath && path != EndPath
    ensures MatchQuery(doc, q1 + [(path, condition)] + q2) == MatchQuery(doc, q1 + q2)
  {
    if q1 == [] {
      assert q1 + [(path, condition)] + q2 == [(path, condition)] + q2;
      assert ([(path, condition)] + q2)[1..] == q2;
      assert q1 + q2 == q2;
    } else {
      UnrecognisedPathIgnored(doc, q1[1..], path, condition, q2);
      assert (q1 + [(path, condition)] + q2)[1..] == q1[1..] + [(path, condition)] + q2;
      assert (q1 + q2)[1..] == q1[1..] + q2;
    }
  }

  /** A condition that lacks its own path's operator never excludes a
      document, whatever other operators it names. */
  lemma UnrecognisedOperatorIgnored(doc: Document, path: string, ops: map<string, Value>)
    requires path == DaysPath ==> "$in" !in ops
    requires path == StartPath ==> "$gte" !in ops
    requires path == EndPath ==> "$lte" !in ops
    ensures CondResult(doc, path, Obj(ops)) == Ok(true)
  {
  }

  /** An empty `$in` target list rejects every document it can inspect. */
  lemma EmptyTargetsExclude(doc: Document)
    requires ScheduleField(doc, "days", List([])).Ok?
    ensures CondResult(doc, DaysPath, Obj(map["$in" := List([])])) == Ok(false)
  {
  }

  /** A document without a schedule counts as running from "00:00" to
      "23:59". */
  lemma MissingTimesDefault(doc: Document, bound: string)
    requires "schedule_details" !in doc
    ensures CondResult(doc, StartPath, Obj(map["$gte" := Str(bound)])) == Ok(!StrLt(DefaultStart, bound))
    ensures CondResult(doc, EndPath, Obj(map["$lte" := Str(bound)])) == Ok(!StrLt(bound, DefaultEnd))
  {
  }
}
