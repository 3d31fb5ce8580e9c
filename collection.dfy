/** The in-memory stand-in for a document collection: a dict from `_id` to
    document, kept in insertion order, with the query and update shapes the
    application uses. `Store` is the value of that dict; `MockCollection`
    is the object whose methods change it. */
module Collection {
  import opened PyValues
  import opened Query
  import opened Updates

  predicate Distinct(ks: seq<Value>) {
    forall i, j :: 0 <= i < j < |ks| ==> ks[i] != ks[j]
  }

  /** The storage dict: its keys in insertion order and its documents. */
  datatype Store = Store(keys: seq<Value>, docs: map<Value, Document>) {
    /** Each key once, exactly the keys of the dict, all hashable. */
    ghost predicate Valid() {
      && Distinct(keys)
      && (forall k :: k in docs <==> k in keys)
      && (forall k :: k in docs ==> Hashable(k))
    }
  }

  // ---------------------------------------------------------------------
  // count_documents

  /** `len(storage)`. */
  function Count(s: Store): nat {
    |s.docs|
  }

  lemma {:induction false} DistinctCard(ks: seq<Value>)
    requires Distinct(ks)
    ensures |set k | k in ks| == |ks|
  {
    if ks != [] {
      var init := ks[..|ks| - 1];
      var last := ks[|ks| - 1];
      assert Distinct(init);
      DistinctCard(init);
      assert (set k | k in ks) == (set k | k in init) + {last} by {
        assert ks == init + [last];
      }
      assert last !in (set k | k in init);
    }
  }

  /** The number of stored documents is the number of keys. */
  lemma CountIsKeys(s: Store)
    requires s.Valid()
    ensures Count(s) == |s.keys|
  {
    DistinctCard(s.keys);
    assert s.docs.Keys == set k | k in s.keys;
  }

  // ---------------------------------------------------------------------
  // insert_one and find_one

  /** `storage[document["_id"]] = document`: KeyError without `_id`,
      TypeError for an unhashable `_id`; a known `_id` is overwritten in
      place, a new one goes last. */
  function Inserted(s: Store, doc: Document): Result<Store> {
    if "_id" !in doc then Raised(KeyError)
    else if !Hashable(doc["_id"]) then Raised(TypeError)
    else
      var id := doc["_id"];
      Ok(Store(if id in s.docs then s.keys else s.keys + [id], s.docs[id := doc]))
  }

  /** `find_one(query)`: an empty query finds nothing; otherwise the
      document stored under `query.get("_id")`, if any. */
  function Lookup(s: Store, query: map<string, Value>): Result<Option<Document>> {
    if query == map[] then Ok(None)
    else
      var id := Get(query, "_id", Null);
      if !Hashable(id) then Raised(TypeError)
      else Ok(if id in s.docs then Some(s.docs[id]) else None)
  }

  /** An insert makes the document retrievable by its `_id`; a fresh `_id`
      adds one document at the end of the order, a known one replaces that
      document where it stands; no other document changes. */
  lemma InsertSemantics(s: Store, doc: Document)
    requires s.Valid() && "_id" in doc && Hashable(doc["_id"])
    ensures Inserted(s, doc).Ok?
    ensures var s' := Inserted(s, doc).value; var id := doc["_id"];
      && s'.Valid()
      && Lookup(s', map["_id" := id]) == Ok(Some(doc))
      && (id !in s.docs ==> Count(s') == Count(s) + 1 && s'.keys == s.keys + [id])
      && (id in s.docs ==> Count(s') == Count(s) && s'.keys == s.keys)
      && (forall k :: k != id ==> (k in s'.docs <==> k in s.docs))
      && (forall k :: k != id && k in s.docs ==> s'.docs[k] == s.docs[k])
  {
    var id := doc["_id"];
    var s' := Inserted(s, doc).value;
    var byId := map["_id" := id];
    assert "_id" in byId && byId != map[];
    CountIsKeys(s);
    if id !in s.docs {
      assert s'.keys == s.keys + [id];
      assert Distinct(s'.keys) by {
        forall i, j | 0 <= i < j < |s'.keys| ensures s'.keys[i] != s'.keys[j] {
          if j == |s.keys| {
            assert s'.keys[i] == s.keys[i];
          }
        }
      }
      assert forall k :: k in s'.docs <==> k in s'.keys;
      assert s'.Valid();
      CountIsKeys(s');
      assert Count(s') == Count(s) + 1;
      assert Lookup(s', map["_id" := id]) == Ok(Some(doc));
    } else {
      assert s'.docs.Keys == s.docs.Keys;
    }
  }

  /** Inserting with a missing or unhashable `_id` raises and stores
      nothing. */
  lemma InsertRejects(s: Store, doc: Document)
    ensures "_id" !in doc ==> Inserted(s, doc) == Raised(KeyError)
    ensures "_id" in doc && !Hashable(doc["_id"]) ==> Inserted(s, doc) == Raised(TypeError)
  {
  }

  // ---------------------------------------------------------------------
  // find

  /** A returned document: a copy of the stored one with `_id` set to its
      storage key. */
  function Project(key: Value, doc: Document): Document {
    doc["_id" := key]
  }

  predicate Stored(keys: seq<Value>, docs: map<Value, Document>) {
    forall k :: k in keys ==> k in docs
  }

  /** `find()` without a query: every stored document in key order. */
  function All(keys: seq<Value>, docs: map<Value, Document>): seq<Document>
    requires Stored(keys, docs)
    decreases |keys|
  {
    if keys == [] then []
    else
      var last := keys[|keys| - 1];
      All(keys[..|keys| - 1], docs) + [Project(last, docs[last])]
  }

  /** `find(query)`: the scan over the storage with the per-document query
      loop; the first exception raised escapes. */
  function Scan(keys: seq<Value>, docs: map<Value, Document>, q: Query): Result<seq<Document>>
    requires Stored(keys, docs)
    decreases |keys|
  {
    if keys == [] then Ok([])
    else
      var last := keys[|keys| - 1];
      match Scan(keys[..|keys| - 1], docs, q)
      case Raised(e) => Raised(e)
      case Ok(rs) =>
        match MatchQuery(docs[last], q)
        case Raised(e) => Raised(e)
        case Ok(keep) => Ok(if keep then rs + [Project(last, docs[last])] else rs)
  }

  /** `find(query)` with its two branches: no query, or a scan. */
  function Found(s: Store, q: Query): Result<seq<Document>>
    requires Stored(s.keys, s.docs)
  {
    if q == [] then Ok(All(s.keys, s.docs)) else Scan(s.keys, s.docs, q)
  }

  /** The stored documents that satisfy every item of the query, in key
      order: the intended answer to `find(query)`. */
  function Select(keys: seq<Value>, docs: map<Value, Document>, q: Query): seq<Document>
    requires Stored(keys, docs)
    decreases |keys|
  {
    if keys == [] then []
    else
      var last := keys[|keys| - 1];
      Select(keys[..|keys| - 1], docs, q) +
        (if Satisfies(docs[last], q) then [Project(last, docs[last])] else [])
  }

  /** With no query, each stored document comes back exactly once, in
      insertion order, carrying its storage key as `_id`. */
  lemma {:induction false} AllInOrder(keys: seq<Value>, docs: map<Value, Document>)
    requires Stored(keys, docs)
    ensures |All(keys, docs)| == |keys|
    ensures forall i :: 0 <= i < |keys| ==>
      All(keys, docs)[i] == Project(keys[i], docs[keys[i]]) && All(keys, docs)[i]["_id"] == keys[i]
  {
    if keys != [] {
      var init := keys[..|keys| - 1];
      AllInOrder(init, docs);
      forall i | 0 <= i < |keys| - 1 ensures keys[i] == init[i] { }
    }
  }

  /** The source's two branches agree: scanning with an empty query would
      return every document too. */
  lemma {:induction false} EmptyQueryScansAll(keys: seq<Value>, docs: map<Value, Document>)
    requires Stored(keys, docs)
    ensures Scan(keys, docs, []) == Ok(All(keys, docs))
  {
    if keys != [] {
      EmptyQueryScansAll(keys[..|keys| - 1], docs);
    }
  }

  /** Once a prefix of the scan raises, the whole scan raises the same. */
  lemma {:induction false} ScanRaisedPrefix(keys: seq<Value>, docs: map<Value, Document>, q: Query, i: nat)
    requires Stored(keys, docs) && i <= |keys|
    requires Scan(keys[..i], docs, q).Raised?
    ensures Scan(keys, docs, q) == Scan(keys[..i], docs, q)
    decreases |keys| - i
  {
    if i < |keys| {
      assert keys[..i + 1][..i] == keys[..i];
      ScanRaisedPrefix(keys, docs, q, i + 1);
    } else {
      assert keys[..i] == keys;
    }
  }

  /** On well-typed documents and query, `find` returns exactly the
      documents satisfying every item, in storage order. */
  lemma {:induction false} ScanSelects(keys: seq<Value>, docs: map<Value, Document>, q: Query)
    requires Stored(keys, docs)
    requires forall k :: k in keys ==> QueryTyped(docs[k], q)
    ensures Scan(keys, docs, q) == Ok(Select(keys, docs, q))
  {
    if keys != [] {
      var last := keys[|keys| - 1];
      var init := keys[..|keys| - 1];
      assert last in keys;
      assert forall k :: k in init ==> k in keys;
      ScanSelects(init, docs, q);
      MatchQueryTyped(docs[last], q);
      var rs := Select(init, docs, q);
      var keep := Satisfies(docs[last], q);
      assert keys[..|keys| - 1] == init;
      assert Scan(init, docs, q) == Ok(rs);
      assert MatchQuery(docs[last], q) == Ok(keep);
      assert Scan(keys, docs, q) == Ok(if keep then rs + [Project(last, docs[last])] else rs);
      assert Select(keys, docs, q) == rs + (if keep then [Project(last, docs[last])] else []);
      assert rs + [] == rs;
    }
  }

  /** A document is returned iff it is the projection of a stored document
      that satisfies the query. */
  lemma {:induction false} SelectExactly(keys: seq<Value>, docs: map<Value, Document>, q: Query, d: Document)
    requires Stored(keys, docs)
    ensures d in Select(keys, docs, q) <==>
      exists i :: 0 <= i < |keys| && Satisfies(docs[keys[i]], q) && d == Project(keys[i], docs[keys[i]])
  {
    if keys != [] {
      var init := keys[..|keys| - 1];
      var last := keys[|keys| - 1];
      SelectExactly(init, docs, q, d);
      if d in Select(keys, docs, q) && d !in Select(init, docs, q) {
        assert Satisfies(docs[last], q) && d == Project(last, docs[last]);
      }
      if exists i :: 0 <= i < |keys| && Satisfies(docs[keys[i]], q) && d == Project(keys[i], docs[keys[i]]) {
        var i :| 0 <= i < |keys| && Satisfies(docs[keys[i]], q) && d == Project(keys[i], docs[keys[i]]);
        if i < |keys| - 1 {
          assert init[i] == keys[i];
        }
      }
    }
  }

  // ---------------------------------------------------------------------
  // aggregate

  /** The values `days.update(schedule_days)` adds for one document:
      a list's items (each must be hashable), a string's characters,
      a dict's keys. */
  function DayValues(doc: Document): Result<set<Value>> {
    match ScheduleField(doc, "days", List([]))
    case Raised(e) => Raised(e)
    case Ok(v) =>
      match v
      case List(xs) =>
        if forall x :: x in xs ==> Hashable(x) then Ok(set x | x in xs) else Raised(TypeError)
      case Str(s) => Ok(set x | x in Chars(s))
      case Obj(m) => Ok(set k | k in m :: Str(k))
      case _ => Raised(TypeError)
  }

  /** The `days` set after the loop over the stored documents. */
  function DaysOf(keys: seq<Value>, docs: map<Value, Document>): Result<set<Value>>
    requires Stored(keys, docs)
    decreases |keys|
  {
    if keys == [] then Ok({})
    else
      match DaysOf(keys[..|keys| - 1], docs)
      case Raised(e) => Raised(e)
      case Ok(days) =>
        match DayValues(docs[keys[|keys| - 1]])
        case Raised(e) => Raised(e)
        case Ok(more) => Ok(days + more)
  }

  lemma {:induction false} DaysOfRaisedPrefix(keys: seq<Value>, docs: map<Value, Document>, i: nat)
    requires Stored(keys, docs) && i <= |keys|
    requires DaysOf(keys[..i], docs).Raised?
    ensures DaysOf(keys, docs) == DaysOf(keys[..i], docs)
    decreases |keys| - i
  {
    if i < |keys| {
      assert keys[..i + 1][..i] == keys[..i];
      DaysOfRaisedPrefix(keys, docs, i + 1);
    } else {
      assert keys[..i] == keys;
    }
  }

  /** On well-typed documents the set is the union of their day lists. */
  lemma {:induction false} DaysOfTyped(keys: seq<Value>, docs: map<Value, Document>)
    requires Stored(keys, docs)
    requires forall k :: k in keys ==> ScheduleHas(docs[k], "days", IsList)
    requires forall k, x :: k in keys && x in DocDays(docs[k]) ==> x.Str?
    ensures DaysOf(keys, docs).Ok?
    ensures forall x :: x in DaysOf(keys, docs).value <==>
      exists k :: k in keys && x in DocDays(docs[k])
  {
    if keys != [] {
      var init := keys[..|keys| - 1];
      var last := keys[|keys| - 1];
      DaysOfTyped(init, docs);
      assert forall k :: k in keys <==> k in init || k == last by {
        assert keys == init + [last];
      }
      assert DayValues(docs[last]) == Ok(set x | x in DocDays(docs[last]));
    }
  }

  /** Python's `<` on the values `sorted` can order: two strings or two
      integers. */
  predicate Lt(a: Value, b: Value) {
    if a.Str? && b.Str? then StrLt(a.s, b.s)
    else if a.Int? && b.Int? then a.i < b.i
    else false
  }

  predicate Comparable(a: Value, b: Value) {
    (a.Str? && b.Str?) || (a.Int? && b.Int?)
  }

  /** `sorted(days)` succeeds: any two distinct members compare. A sort
      that finishes has compared every pair adjacent in its output, so a
      set mixing kinds, or holding None beside anything, always raises. */
  predicate Sortable(days: set<Value>) {
    forall a, b :: a in days && b in days && a != b ==> Comparable(a, b)
  }

  predicate Increasing(xs: seq<Value>) {
    forall i, j :: 0 <= i < j < |xs| ==> Lt(xs[i], xs[j])
  }

  /** `sorted` orders days by the same `<` that `find` uses for its time
      bounds. */
  lemma LtIsLess(a: Value, b: Value)
    requires Comparable(a, b)
    ensures Less(a, b) == Ok(Lt(a, b))
  {
  }

  lemma LtIrreflexive(a: Value)
    ensures !Lt(a, a)
  {
    if a.Str? { StrLtIrreflexive(a.s); }
  }

  lemma LtTransitive(a: Value, b: Value, c: Value)
    requires Lt(a, b) && Lt(b, c)
    ensures Lt(a, c)
  {
    if a.Str? { StrLtTransitive(a.s, b.s, c.s); }
  }

  lemma LtTotal(a: Value, b: Value)
    requires Comparable(a, b)
    ensures a != b <==> Lt(a, b) || Lt(b, a)
    ensures !(Lt(a, b) && Lt(b, a))
  {
    if a.Str? { StrLtTrichotomy(a.s, b.s); }
  }

  /** One step of the sort: `d` put in its place in an increasing list. */
  function InsertSorted(xs: seq<Value>, d: Value): (r: seq<Value>)
    requires Increasing(xs) && d !in xs
    requires forall x :: x in xs ==> Comparable(x, d)
    ensures Increasing(r)
    ensures forall y :: y in r <==> y in xs || y == d
    ensures |r| == |xs| + 1
  {
    if xs == [] then [d]
    else if Lt(d, xs[0]) then
      assert forall j :: 0 <= j < |xs| ==> Lt(d, xs[j]) by {
        forall j | 0 <= j < |xs| ensures Lt(d, xs[j]) {
          if j > 0 { LtTransitive(d, xs[0], xs[j]); }
        }
      }
      [d] + xs
    else
      LtTotal(xs[0], d);
      var rest := InsertSorted(xs[1..], d);
      assert forall y :: y in rest ==> Lt(xs[0], y) by {
        forall y | y in rest ensures Lt(xs[0], y) {
          if y != d {
            var j :| 0 <= j < |xs[1..]| && xs[1..][j] == y;
            assert xs[j + 1] == y;
          }
        }
      }
      [xs[0]] + rest
  }

  /** Two increasing lists with the same members are equal: the order
      `sorted` produces is the only one. */
  lemma {:induction false} IncreasingUnique(a: seq<Value>, b: seq<Value>)
    requires Increasing(a) && Increasing(b)
    requires forall x :: x in a <==> x in b
    ensures a == b
  {
    if a != [] { assert a[0] in a; }
    if b != [] { assert b[0] in b; }
    if a != [] && b != [] {
      if a[0] != b[0] {
        var j :| 0 <= j < |b| && b[j] == a[0];
        var k :| 0 <= k < |a| && a[k] == b[0];
        assert j > 0 && k > 0;
        LtTotal(a[0], b[0]);
        assert false;
      }
      forall x ensures x in a[1..] <==> x in b[1..] {
        if x in a[1..] {
          var i :| 0 <= i < |a[1..]| && a[1..][i] == x;
          assert Lt(a[0], a[i + 1]);
          LtIrreflexive(x);
          assert x in b;
          var j :| 0 <= j < |b| && b[j] == x;
          assert j != 0;
          assert b[1..][j - 1] == x;
        }
        if x in b[1..] {
          var i :| 0 <= i < |b[1..]| && b[1..][i] == x;
          assert Lt(b[0], b[i + 1]);
          LtIrreflexive(x);
          assert x in a;
          var j :| 0 <= j < |a| && a[j] == x;
          assert j != 0;
          assert a[1..][j - 1] == x;
        }
      }
      IncreasingUnique(a[1..], b[1..]);
      assert a == [a[0]] + a[1..] && b == [b[0]] + b[1..];
    }
  }

  /** `sorted(days)` on a set it can order: an increasing list holding
      each member once. */
  method SortDays(days: set<Value>) returns (sorted: seq<Value>)
    requires Sortable(days)
    ensures Increasing(sorted)
    ensures forall d :: d in sorted <==> d in days
  {
    sorted := [];
    var rest := days;
    while rest != {}
      invariant rest <= days
      invariant Increasing(sorted)
      invariant forall d :: d in sorted <==> d in days && d !in rest
      decreases rest
    {
      var d :| d in rest;
      sorted := InsertSorted(sorted, d);
      rest := rest - {d};
    }
  }

  /** The `{"_id": day}` entries `aggregate` returns. */
  function IdDocs(days: seq<Value>): seq<Document> {
    seq(|days|, i requires 0 <= i < |days| => map["_id" := days[i]])
  }

  /** `r` lists the members of `days` as `{"_id": day}` entries, strictly
      ascending, so each member exactly once. */
  ghost predicate DayEntries(r: seq<Document>, days: set<Value>) {
    && (forall i :: 0 <= i < |r| ==> "_id" in r[i] && r[i] == map["_id" := r[i]["_id"]])
    && (forall i, j :: 0 <= i < j < |r| ==> Lt(r[i]["_id"], r[j]["_id"]))
    && (forall d :: d in days <==> exists i :: 0 <= i < |r| && r[i]["_id"] == d)
  }

  lemma IdDocsEntries(sorted: seq<Value>, days: set<Value>)
    requires Increasing(sorted) && forall d :: d in sorted <==> d in days
    ensures DayEntries(IdDocs(sorted), days)
  {
    var r := IdDocs(sorted);
    forall d | d in days ensures exists i :: 0 <= i < |r| && r[i]["_id"] == d {
      var i :| 0 <= i < |sorted| && sorted[i] == d;
      assert r[i]["_id"] == d;
    }
  }

  /** The entries for a set of days are determined by the set. */
  lemma DayEntriesUnique(r1: seq<Document>, r2: seq<Document>, days: set<Value>)
    requires DayEntries(r1, days) && DayEntries(r2, days)
    ensures r1 == r2
  {
    var a := seq(|r1|, i requires 0 <= i < |r1| => r1[i]["_id"]);
    var b := seq(|r2|, i requires 0 <= i < |r2| => r2[i]["_id"]);
    forall x ensures x in a <==> x in b {
      if x in a {
        var i :| 0 <= i < |a| && a[i] == x;
        assert r1[i]["_id"] == x;
        assert x in days;
        var j :| 0 <= j < |r2| && r2[j]["_id"] == x;
        assert b[j] == x;
      }
      if x in b {
        var i :| 0 <= i < |b| && b[i] == x;
        assert r2[i]["_id"] == x;
        assert x in days;
        var j :| 0 <= j < |r1| && r1[j]["_id"] == x;
        assert a[j] == x;
      }
    }
    IncreasingUnique(a, b);
    assert |r1| == |r2|;
    forall i | 0 <= i < |r1| ensures r1[i] == r2[i] {
      assert a[i] == b[i];
    }
  }

  // ---------------------------------------------------------------------
  // update_one

  /** `update_one(query, update)` on a store, with the count it reports. */
  function Updated(s: Store, query: map<string, Value>, update: map<string, Value>): Result<(Store, int)> {
    var id := Get(query, "_id", Null);
    if !Hashable(id) then Raised(TypeError)
    else if id !in s.docs then Ok((s, 0))
    else
      match ApplyUpdate(s.docs[id], update)
      case Raised(e) => Raised(e)
      case Ok(d) => Ok((Store(s.keys, s.docs[id := d]), 1))
  }

  /** An update reports 1 exactly when the `_id` is stored, changes at
      most that document and never the key order; an unknown `_id`
      changes nothing and reports 0. */
  lemma UpdateTouchesOnlyTarget(s: Store, query: map<string, Value>, update: map<string, Value>)
    requires s.Valid()
    requires Updated(s, query, update).Ok?
    ensures var (s', n) := Updated(s, query, update).value; var id := Get(query, "_id", Null);
      && s'.Valid()
      && s'.keys == s.keys
      && Count(s') == Count(s)
      && (n == 1 <==> id in s.docs)
      && (n == 0 <==> id !in s.docs)
      && (id !in s.docs ==> s' == s)
      && (forall k :: k != id ==> (k in s'.docs <==> k in s.docs))
      && (forall k :: k != id && k in s.docs ==> s'.docs[k] == s.docs[k])
      && (id in s.docs ==> ApplyUpdate(s.docs[id], update) == Ok(s'.docs[id]))
  {
  }

  /** The count is 1 for a stored `_id` even when nothing changes. */
  lemma UpdateCountsFoundNotChanged(s: Store, id: Value)
    requires Hashable(id) && id in s.docs
    ensures Updated(s, map["_id" := id], map[]) == Ok((s, 1))
  {
    assert s.docs[id := s.docs[id]] == s.docs;
  }

  /** A document that is `$push`ed a new value and then `$pull`ed it has
      its list back. */
  lemma PushThenPullRestores(s: Store, id: Value, f: string, v: Value)
    requires s.Valid() && id in s.docs
    requires f in s.docs[id] && s.docs[id][f].List? && v !in s.docs[id][f].items
    ensures Updated(s, map["_id" := id], map["$push" := Obj(map[f := v])]).Ok?
    ensures var s1 := Updated(s, map["_id" := id], map["$push" := Obj(map[f := v])]).value.0;
      Updated(s1, map["_id" := id], map["$pull" := Obj(map[f := v])]) == Ok((s, 1))
  {
    var doc := s.docs[id];
    PushThenPull(doc, f, v);
    var pushed := PushFields(doc, Obj(map[f := v])).value;
    var s1 := Store(s.keys, s.docs[id := pushed]);
    assert Updated(s, map["_id" := id], map["$push" := Obj(map[f := v])]) == Ok((s1, 1));
    assert s1.docs[id] == pushed;
    assert Updated(s1, map["_id" := id], map["$pull" := Obj(map[f := v])]) == Ok((Store(s.keys, s1.docs[id := doc]), 1));
    assert s1.docs[id := doc] == s.docs;
  }

  // ---------------------------------------------------------------------
  // The collection object

  /** The document after an update loop that raised part-way: `$push` or
      `$pull` done on some of the named fields, in whatever order the
      operand's items came. */
  ghost predicate PartlyUpdated(doc: Document, update: map<string, Value>, d: Document) {
    || d == doc
    || ("$set" !in update && "$push" in update && update["$push"].Obj? &&
        PushedSome(doc, update["$push"].fields, d))
    || ("$set" !in update && "$push" !in update && "$pull" in update && update["$pull"].Obj? &&
        PulledSome(doc, update["$pull"].fields, d))
  }

  /** `d` is `doc` with `$push` done on some of the fields of `m`. */
  ghost predicate PushedSome(doc: Document, m: map<string, Value>, d: Document) {
    exists done :: done <= m.Keys && (forall f :: f in done ==> ListOrAbsent(doc, f)) &&
      d == PushedOn(doc, m, done)
  }

  /** `d` is `doc` with `$pull` done on some of the fields of `m`. */
  ghost predicate PulledSome(doc: Document, m: map<string, Value>, d: Document) {
    exists done :: done <= m.Keys && (forall f :: f in done ==> ListOrAbsent(doc, f)) &&
      d == PulledOn(doc, m, done)
  }

  class MockCollection {
    /** The storage dict's keys, in insertion order. */
    var keys: seq<Value>
    /** The storage dict. */
    var storage: map<Value, Document>

    function Contents(): Store
      reads this
    {
      Store(keys, storage)
    }

    ghost predicate Valid()
      reads this
    {
      Contents().Valid()
    }

    /** A collection over a fresh, empty dict. */
    constructor ()
      ensures Valid() && Contents() == Store([], map[])
    {
      keys := [];
      storage := map[];
    }

    /** `count_documents(query)`: the query is ignored. */
    method CountDocuments(query: map<string, Value>) returns (n: nat)
      requires Valid()
      ensures n == Count(Contents()) && n == |keys|
    {
      CountIsKeys(Contents());
      n := |storage|;
    }

    /** `insert_one(document)`. */
    method InsertOne(document: Document) returns (r: Result<()>)
      requires Valid()
      modifies this
      ensures Valid()
      ensures match Inserted(old(Contents()), document)
        case Ok(s') => r == Ok(()) && Contents() == s'
        case Raised(e) => r == Raised(e) && Contents() == old(Contents())
    {
      if "_id" !in document {
        return Raised(KeyError);
      }
      var id := document["_id"];
      if !Hashable(id) {
        return Raised(TypeError);
      }
      InsertSemantics(Contents(), document);
      if id !in storage {
        keys := keys + [id];
      }
      storage := storage[id := document];
      r := Ok(());
    }

    /** `find_one(query)`. */
    method FindOne(query: map<string, Value>) returns (r: Result<Option<Document>>)
      requires Valid()
      ensures r == Lookup(Contents(), query)
      ensures r.Ok? && r.value.Some? ==> Get(query, "_id", Null) in keys
    {
      if query == map[] {
        return Ok(None);
      }
      var id := Get(query, "_id", Null);
      if !Hashable(id) {
        return Raised(TypeError);
      }
      r := Ok(if id in storage then Some(storage[id]) else None);
    }

    /** `find(query)`; an absent query is the empty one. */
    method Find(query: Query) returns (r: Result<seq<Document>>)
      requires Valid()
      ensures r == Found(Contents(), query)
    {
      if |query| == 0 {
        var results: seq<Document> := [];
        var i := 0;
        while i < |keys|
          invariant 0 <= i <= |keys|
          invariant results == All(keys[..i], storage)
        {
          var key := keys[i];
          results := results + [Project(key, storage[key])];
          assert keys[..i + 1][..i] == keys[..i];
          i := i + 1;
        }
        assert keys[..|keys|] == keys;
        return Ok(results);
      }
      var results: seq<Document> := [];
      var i := 0;
      while i < |keys|
        invariant 0 <= i <= |keys|
        invariant Scan(keys[..i], storage, query) == Ok(results)
      {
        var key := keys[i];
        var doc := storage[key];
        var matches := true;
        var j := 0;
        while j < |query|
          invariant 0 <= j <= |query|
          invariant MatchQuery(doc, query) == MatchQuery(doc, query[j..])
        {
          assert query[j..][0] == query[j] && query[j..][1..] == query[j + 1..];
          var (path, condition) := query[j];
          var keep := CondResult(doc, path, condition);
          if keep.Raised? {
            assert keys[..i + 1][..i] == keys[..i];
            ScanRaisedPrefix(keys, storage, query, i + 1);
            return Raised(keep.error);
          }
          if !keep.value {
            matches := false;
            break;
          }
          j := j + 1;
        }
        assert MatchQuery(doc, query) == Ok(matches);
        if matches {
          results := results + [Project(key, doc)];
        }
        assert keys[..i + 1][..i] == keys[..i];
        i := i + 1;
      }
      assert keys[..|keys|] == keys;
      r := Ok(results);
    }

    /** `aggregate(pipeline)`: the pipeline is ignored; the result lists the
      distinct scheduled days, ascending. */
    method Aggregate(pipeline: seq<Value>) returns (r: Result<seq<Document>>)
      requires Valid()
      ensures DaysOf(keys, storage).Raised? ==> r == Raised(DaysOf(keys, storage).error)
      ensures DaysOf(keys, storage).Ok? && !Sortable(DaysOf(keys, storage).value) ==>
        r == Raised(TypeError)
      ensures DaysOf(keys, storage).Ok? && Sortable(DaysOf(keys, storage).value) ==>
        r.Ok? && DayEntries(r.value, DaysOf(keys, storage).value)
    {
      var days: set<Value> := {};
      var i := 0;
      while i < |keys|
        invariant 0 <= i <= |keys|
        invariant DaysOf(keys[..i], storage) == Ok(days)
      {
        var more := DayValues(storage[keys[i]]);
        assert keys[..i + 1][..i] == keys[..i];
        if more.Raised? {
          DaysOfRaisedPrefix(keys, storage, i + 1);
          return Raised(more.error);
        }
        days := days + more.value;
        i := i + 1;
      }
      assert keys[..|keys|] == keys;
      if !Sortable(days) {
        return Raised(TypeError);
      }
      var sorted := SortDays(days);
      IdDocsEntries(sorted, days);
      r := Ok(IdDocs(sorted));
    }

    /** `update_one(query, update)`: the modified count, or the exception
      raised; an exception from the `$push` or `$pull` loop leaves the
      fields handled before it updated. */
    method UpdateOne(query: map<string, Value>, update: map<string, Value>) returns (r: Result<int>)
      requires Valid()
      modifies this
      ensures Valid() && keys == old(keys)
      ensures Updated(old(Contents()), query, update).Ok? ==>
        r == Ok(Updated(old(Contents()), query, update).value.1) &&
        Contents() == Updated(old(Contents()), query, update).value.0
      ensures Updated(old(Contents()), query, update).Raised? ==>
        var id := Get(query, "_id", Null);
        && r == Raised(Updated(old(Contents()), query, update).error)
        && storage.Keys == old(storage).Keys
        && (forall k :: k in storage && k != id ==> storage[k] == old(storage)[k])
        && (id in storage ==> PartlyUpdated(old(storage)[id], update, storage[id]))
    {
      var id := Get(query, "_id", Null);
      if !Hashable(id) {
        return Raised(TypeError);
      }
      if id !in storage {
        return Ok(0);
      }
      if "$set" in update {
        var merged := SetFields(storage[id], update["$set"]);
        if merged.Raised? {
          return Raised(merged.error);
        }
        storage := storage[id := merged.value];
      } else if "$push" in update {
        var operand := update["$push"];
        if !operand.Obj? {
          return Raised(AttributeError);
        }
        r := PushEach(id, operand.fields);
        return;
      } else if "$pull" in update {
        var operand := update["$pull"];
        if !operand.Obj? {
          return Raised(AttributeError);
        }
        r := PullEach(id, operand.fields);
        return;
      }
      r := Ok(1);
    }

    /** The `$push` loop of `update_one` on the document stored at `id`. */
    method PushEach(id: Value, m: map<string, Value>) returns (r: Result<int>)
      requires Valid() && id in storage
      modifies this
      ensures Valid() && keys == old(keys) && storage.Keys == old(storage).Keys
      ensures forall k :: k in storage && k != id ==> storage[k] == old(storage)[k]
      ensures PushFields(old(storage)[id], Obj(m)).Ok? ==>
        r == Ok(1) && storage[id] == PushFields(old(storage)[id], Obj(m)).value
      ensures PushFields(old(storage)[id], Obj(m)).Raised? ==>
        r == Raised(AttributeError) && PushedSome(old(storage)[id], m, storage[id])
    {
      ghost var original := storage[id];
      var pending := m.Keys;
      assert PushedOn(original, m, m.Keys - pending) == original;
      while pending != {}
        invariant pending <= m.Keys
        invariant forall f :: f in m.Keys - pending ==> ListOrAbsent(original, f)
        invariant keys == old(keys) && storage.Keys == old(storage).Keys
        invariant forall k :: k in storage && k != id ==> storage[k] == old(storage)[k]
        invariant storage[id] == PushedOn(original, m, m.Keys - pending)
        decreases pending
      {
        var field :| field in pending;
        if field in storage[id] && !storage[id][field].List? {
          assert !ListOrAbsent(original, field);
          return Raised(AttributeError);
        }
        // A missing field starts as an empty list.
        var items := if field in storage[id] then storage[id][field].items else [];
        PushedOnStep(original, m, m.Keys - pending, field);
        storage := storage[id := storage[id][field := List(items + [m[field]])]];
        assert m.Keys - (pending - {field}) == (m.Keys - pending) + {field};
        pending := pending - {field};
      }
      assert m.Keys - pending == m.Keys;
      r := Ok(1);
    }

    /** The `$pull` loop of `update_one` on the document stored at `id`. */
    method PullEach(id: Value, m: map<string, Value>) returns (r: Result<int>)
      requires Valid() && id in storage
      modifies this
      ensures Valid() && keys == old(keys) && storage.Keys == old(storage).Keys
      ensures forall k :: k in storage && k != id ==> storage[k] == old(storage)[k]
      ensures PullFields(old(storage)[id], Obj(m)).Ok? ==>
        r == Ok(1) && storage[id] == PullFields(old(storage)[id], Obj(m)).value
      ensures PullFields(old(storage)[id], Obj(m)).Raised? ==>
        r == Raised(AttributeError) && PulledSome(old(storage)[id], m, storage[id])
    {
      ghost var original := storage[id];
      var pending := m.Keys;
      assert PulledOn(original, m, m.Keys - pending) == original;
      while pending != {}
        invariant pending <= m.Keys
        invariant forall f :: f in m.Keys - pending ==> ListOrAbsent(original, f)
        invariant keys == old(keys) && storage.Keys == old(storage).Keys
        invariant forall k :: k in storage && k != id ==> storage[k] == old(storage)[k]
        invariant storage[id] == PulledOn(original, m, m.Keys - pending)
        decreases pending
      {
        var field :| field in pending;
        if field in storage[id] {
          if !storage[id][field].List? {
            assert !ListOrAbsent(original, field);
            return Raised(AttributeError);
          }
          PulledOnStep(original, m, m.Keys - pending, field);
          storage := storage[id := storage[id][field := List(RemoveFirst(storage[id][field].items, m[field]))]];
        }
        assert m.Keys - (pending - {field}) == (m.Keys - pending) + {field};
        pending := pending - {field};
      }
      assert m.Keys - pending == m.Keys;
      r := Ok(1);
    }
  }
}
