/** Python values as the in-memory collection sees them: the JSON-like
    documents it stores, the exceptions its operations can raise, and the
    handful of built-in operations (`<`, `in`, `dict.get`) its query code
    relies on. */
module PyValues {

  /** A Python value held in a document. Booleans and floats never occur in
      the documents of this application and are not modelled. */
  datatype Value =
    | Null                              // None
    | Int(i: int)
    | Str(s: string)
    | List(items: seq<Value>)
    | Obj(fields: map<string, Value>)   // a dict with string keys

  /** A stored document: a dict from field name to value. */
  type Document = map<string, Value>

  /** The exceptions the collection's code lets escape. */
  datatype PyError = KeyError | TypeError | AttributeError | ValueError

  /** Either the value an expression returns or the exception it raises. */
  datatype Result<+T> = Ok(value: T) | Raised(error: PyError)

  datatype Option<+T> = None | Some(value: T)

  /** Values Python can use as dict keys or set members. */
  predicate Hashable(v: Value) {
    v.Null? || v.Int? || v.Str?
  }

  /** `d.get(key, default)` on a dict. */
  function Get(d: map<string, Value>, key: string, default: Value): Value {
    if key in d then d[key] else default
  }

  // ---------------------------------------------------------------------
  // String ordering

  /** Python's `a < b` on two `str`: lexicographic by code point, a proper
      prefix being smaller. (Dafny's `<` on sequences means proper prefix.) */
  predicate StrLt(a: string, b: string) {
    if |a| == 0 then |b| > 0
    else if |b| == 0 then false
    else if a[0] != b[0] then a[0] < b[0]
    else StrLt(a[1..], b[1..])
  }

  lemma {:induction false} StrLtIrreflexive(a: string)
    ensures !StrLt(a, a)
  {
    if |a| > 0 {
      StrLtIrreflexive(a[1..]);
    }
  }

  lemma {:induction false} StrLtTransitive(a: string, b: string, c: string)
    requires StrLt(a, b) && StrLt(b, c)
    ensures StrLt(a, c)
  {
    if |a| > 0 && |b| > 0 && |c| > 0 && a[0] == b[0] && b[0] == c[0] {
      StrLtTransitive(a[1..], b[1..], c[1..]);
    }
  }

  /** Exactly one of `a < b`, `a == b`, `b < a` holds. */
  lemma {:induction false} StrLtTrichotomy(a: string, b: string)
    ensures a == b <==> !StrLt(a, b) && !StrLt(b, a)
    ensures !(StrLt(a, b) && StrLt(b, a))
  {
    if |a| > 0 && |b| > 0 && a[0] == b[0] {
      StrLtTrichotomy(a[1..], b[1..]);
      if a[1..] == b[1..] {
        assert a == [a[0]] + a[1..] && b == [b[0]] + b[1..];
      }
    } else if a == b {
      StrLtIrreflexive(a);
    }
  }

  // ---------------------------------------------------------------------
  // Comparison `a < b` on arbitrary values

  /** The length of the longest common prefix of `xs` and `ys`, compared
      with `==` as Python's list comparison does. */
  function CommonPrefix(xs: seq<Value>, ys: seq<Value>): (k: nat)
    ensures k <= |xs| && k <= |ys|
    ensures xs[..k] == ys[..k]
    ensures k < |xs| && k < |ys| ==> xs[k] != ys[k]
  {
    if |xs| == 0 || |ys| == 0 || xs[0] != ys[0] then 0
    else
      var k := CommonPrefix(xs[1..], ys[1..]);
      assert xs[..k + 1] == [xs[0]] + xs[1..][..k];
      assert ys[..k + 1] == [ys[0]] + ys[1..][..k];
      k + 1
  }

  /** Python's `a < b`: strings lexicographically, integers numerically,
      lists element by element; any other pairing raises TypeError. The
      source's `a > b` on these types is `b < a`. */
  function Less(a: Value, b: Value): Result<bool>
    decreases a
  {
    if a.Str? && b.Str? then Ok(StrLt(a.s, b.s))
    else if a.Int? && b.Int? then Ok(a.i < b.i)
    else if a.List? && b.List? then
      var k := CommonPrefix(a.items, b.items);
      if k == |a.items| || k == |b.items| then Ok(|a.items| < |b.items|)
      else Less(a.items[k], b.items[k])
    else Raised(TypeError)
  }

  // ---------------------------------------------------------------------
  // Membership `x in c` and `any(x in c for x in targets)`

  /** `t` occurs as a contiguous piece of `s` (Python's `t in s` on str). */
  predicate IsSubstring(t: string, s: string)
    decreases |s|
  {
    t <= s || (|s| > 0 && IsSubstring(t, s[1..]))
  }

  /** Python's `item in container`. */
  function Contains(container: Value, item: Value): Result<bool> {
    match container
    case List(xs) => Ok(item in xs)
    case Obj(m) =>
      if !Hashable(item) then Raised(TypeError)
      else Ok(item.Str? && item.s in m)
    case Str(s) =>
      if item.Str? then Ok(IsSubstring(item.s, s)) else Raised(TypeError)
    case _ => Raised(TypeError)
  }

  /** `any(t in container for t in ts)`, stopping at the first hit. */
  function AnyOf(ts: seq<Value>, container: Value): Result<bool> {
    if ts == [] then Ok(false)
    else match Contains(container, ts[0])
      case Raised(e) => Raised(e)
      case Ok(hit) => if hit then Ok(true) else AnyOf(ts[1..], container)
  }

  /** The one-character strings of `s`, as iterating a str yields them. */
  function Chars(s: string): seq<Value> {
    seq(|s|, i requires 0 <= i < |s| => Str([s[i]]))
  }

  /** `any(t in container for t in targets)` for any iterable `targets`.
      A dict iterates over its keys; since every key is a string, whether a
      key is found does not depend on the order the keys come in. */
  function AnyIn(targets: Value, container: Value): Result<bool> {
    match targets
    case List(ts) => AnyOf(ts, container)
    case Str(s) => AnyOf(Chars(s), container)
    case Obj(m) =>
      if m == map[] then Ok(false)
      else if container.Null? || container.Int? then Raised(TypeError)
      else Ok(exists k :: k in m && Contains(container, Str(k)) == Ok(true))
    case _ => Raised(TypeError)
  }

  /** For a list of targets and a list container `any` is plain
      intersection, and never raises. */
  lemma {:induction false} AnyOfLists(ts: seq<Value>, ds: seq<Value>)
    ensures AnyOf(ts, List(ds)) == Ok(exists t :: t in ts && t in ds)
  {
    if ts != [] {
      AnyOfLists(ts[1..], ds);
      if ts[0] !in ds {
        assert forall t :: t in ts && t in ds ==> t in ts[1..] by {
          forall t | t in ts && t in ds ensures t in ts[1..] {
            assert t != ts[0];
            var i :| 0 <= i < |ts| && ts[i] == t;
            assert ts[1..][i - 1] == t;
          }
        }
      }
    }
  }

  // ---------------------------------------------------------------------
  // Reaching into a document's schedule

  /** `doc.get("schedule_details", {}).get(field, default)`: raises
      AttributeError when `schedule_details` is present but not a dict. */
  function ScheduleField(doc: Document, field: string, default: Value): Result<Value> {
    if "schedule_details" !in doc then Ok(default)
    else match doc["schedule_details"]
      case Obj(m) => Ok(Get(m, field, default))
      case _ => Raised(AttributeError)
  }

  /** `op in condition` for a query condition. */
  function HasOperator(condition: Value, op: string): Result<bool> {
    match condition
    case Obj(m) => Ok(op in m)
    case List(xs) => Ok(Str(op) in xs)
    case Str(s) => Ok(IsSubstring(op, s))
    case _ => Raised(TypeError)
  }

  /** `condition[op]`, once `op in condition` held: only a dict can be
      indexed by a string. */
  function Operand(condition: Value, op: string): Result<Value> {
    if condition.Obj? && op in condition.fields then Ok(condition.fields[op])
    else Raised(TypeError)
  }
}
