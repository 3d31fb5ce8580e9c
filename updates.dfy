/** The three update kinds `update_one` applies to the document it found:
    `$set` merges fields, `$push` appends to list fields, `$pull` removes
    the first occurrence of a value from list fields. */
module Updates {
  import opened PyValues

  /** `xs.remove(v)` with its ValueError swallowed: the first occurrence of
      `v` goes, and a list without `v` is left as it is. */
  function RemoveFirst(xs: seq<Value>, v: Value): seq<Value> {
    if xs == [] then []
    else if xs[0] == v then xs[1..]
    else [xs[0]] + RemoveFirst(xs[1..], v)
  }

  /** With no occurrence of `v` the list is unchanged. */
  lemma {:induction false} RemoveFirstAbsent(xs: seq<Value>, v: Value)
    requires v !in xs
    ensures RemoveFirst(xs, v) == xs
  {
    if xs != [] {
      assert v !in xs[1..];
      RemoveFirstAbsent(xs[1..], v);
      assert xs == [xs[0]] + xs[1..];
    }
  }

  /** Only the first occurrence, at index `i`, is removed; the elements
      before and after it keep their order. */
  lemma {:induction false} RemoveFirstAt(xs: seq<Value>, v: Value, i: nat)
    requires i < |xs| && xs[i] == v && v !in xs[..i]
    ensures RemoveFirst(xs, v) == xs[..i] + xs[i + 1..]
  {
    if i > 0 {
      assert xs[0] == xs[..i][0];
      assert xs[1..][i - 1] == v;
      assert xs[1..][..i - 1] == xs[..i][1..];
      RemoveFirstAt(xs[1..], v, i - 1);
      assert xs[..i] == [xs[0]] + xs[1..][..i - 1];
      assert xs[i + 1..] == xs[1..][i - 1 + 1..];
    }
  }

  /** Removing a value right after appending it, when it was not there
      before, gives the list back. */
  lemma {:induction false} RemoveFirstAfterAppend(xs: seq<Value>, v: Value)
    requires v !in xs
    ensures RemoveFirst(xs + [v], v) == xs
  {
    if xs == [] {
    } else {
      assert (xs + [v])[1..] == xs[1..] + [v];
      RemoveFirstAfterAppend(xs[1..], v);
      assert xs == [xs[0]] + xs[1..];
    }
  }

  // ---------------------------------------------------------------------
  // $set

  /** `doc.update(operand)`: a dict operand overwrites the named fields;
      an empty iterable changes nothing; a non-empty str raises ValueError
      (its one-character items are not key/value pairs); a non-empty list
      is taken to raise TypeError; anything else is not iterable and raises
      TypeError. */
  function SetFields(doc: Document, operand: Value): Result<Document> {
    match operand
    case Obj(m) => Ok(doc + m)
    case List(xs) => if xs == [] then Ok(doc) else Raised(TypeError)
    case Str(s) => if s == [] then Ok(doc) else Raised(ValueError)
    case _ => Raised(TypeError)
  }

  /** `$set` is a shallow overwrite: the named fields take the given
      values, every other field keeps its own. */
  lemma SetOverwrites(doc: Document, m: map<string, Value>)
    ensures SetFields(doc, Obj(m)).Ok?
    ensures var d := SetFields(doc, Obj(m)).value;
      && d.Keys == doc.Keys + m.Keys
      && (forall f :: f in m ==> d[f] == m[f])
      && (forall f :: f in doc && f !in m ==> d[f] == doc[f])
  {
  }

  // ---------------------------------------------------------------------
  // $push and $pull

  /** A field `append` and `remove` can work on: absent, or a list. */
  predicate ListOrAbsent(doc: Document, f: string) {
    f !in doc || doc[f].List?
  }

  /** The items of a field, an absent field counting as `[]`. */
  function ItemsOr(doc: Document, f: string): seq<Value>
    requires ListOrAbsent(doc, f)
  {
    if f in doc then doc[f].items else []
  }

  /** `doc` after appending `m[f]` to each field `f` in `done`. */
  function PushedOn(doc: Document, m: map<string, Value>, done: set<string>): Document
    requires done <= m.Keys
    requires forall f :: f in done ==> ListOrAbsent(doc, f)
  {
    map f | f in doc.Keys + done :: if f in done then List(ItemsOr(doc, f) + [m[f]]) else doc[f]
  }

  /** `doc` after removing the first `m[f]` from each present field `f`
      in `done`. */
  function PulledOn(doc: Document, m: map<string, Value>, done: set<string>): Document
    requires done <= m.Keys
    requires forall f :: f in done ==> ListOrAbsent(doc, f)
  {
    map f | f in doc.Keys :: if f in done then List(RemoveFirst(ItemsOr(doc, f), m[f])) else doc[f]
  }

  /** One more field pushed. */
  lemma PushedOnStep(doc: Document, m: map<string, Value>, done: set<string>, f: string)
    requires done <= m.Keys && f in m && f !in done
    requires forall g :: g in done + {f} ==> ListOrAbsent(doc, g)
    ensures PushedOn(doc, m, done)[f := List(ItemsOr(doc, f) + [m[f]])] == PushedOn(doc, m, done + {f})
  {
  }

  /** One more field pulled. */
  lemma PulledOnStep(doc: Document, m: map<string, Value>, done: set<string>, f: string)
    requires done <= m.Keys && f in m && f !in done && f in doc
    requires forall g :: g in done + {f} ==> ListOrAbsent(doc, g)
    ensures PulledOn(doc, m, done)[f := List(RemoveFirst(ItemsOr(doc, f), m[f]))] == PulledOn(doc, m, done + {f})
  {
  }

  /** The outcome of the `$push` loop once every field was handled:
      `.items()` of a non-dict and `append` on a non-list raise
      AttributeError. */
  function PushFields(doc: Document, operand: Value): Result<Document> {
    if !operand.Obj? then Raised(AttributeError)
    else if exists f :: f in operand.fields && !ListOrAbsent(doc, f) then Raised(AttributeError)
    else Ok(PushedOn(doc, operand.fields, operand.fields.Keys))
  }

  /** The outcome of the `$pull` loop once every field was handled. */
  function PullFields(doc: Document, operand: Value): Result<Document> {
    if !operand.Obj? then Raised(AttributeError)
    else if exists f :: f in operand.fields && !ListOrAbsent(doc, f) then Raised(AttributeError)
    else Ok(PulledOn(doc, operand.fields, operand.fields.Keys))
  }

  /** `$push` appends each value at the end of its field's list, creating
      the list when the field is absent, and touches no other field. */
  lemma PushAppends(doc: Document, m: map<string, Value>)
    requires forall f :: f in m ==> ListOrAbsent(doc, f)
    ensures PushFields(doc, Obj(m)).Ok?
    ensures var d := PushFields(doc, Obj(m)).value;
      && d.Keys == doc.Keys + m.Keys
      && (forall f :: f in m ==> d[f] == List(ItemsOr(doc, f) + [m[f]]))
      && (forall f :: f in doc && f !in m ==> d[f] == doc[f])
  {
  }

  /** `$pull` drops the first occurrence of each value from its field's
      list, ignores absent fields and values, and adds no field. */
  lemma PullRemovesFirst(doc: Document, m: map<string, Value>)
    requires forall f :: f in m ==> ListOrAbsent(doc, f)
    ensures PullFields(doc, Obj(m)).Ok?
    ensures var d := PullFields(doc, Obj(m)).value;
      && d.Keys == doc.Keys
      && (forall f :: f in m && f in doc ==> d[f] == List(RemoveFirst(doc[f].items, m[f])))
      && (forall f :: f in doc && f !in m ==> d[f] == doc[f])
      && (forall f :: f in m && f in doc && m[f] !in doc[f].items ==> d[f] == doc[f])
  {
    forall f | f in m && f in doc && m[f] !in doc[f].items
      ensures List(RemoveFirst(doc[f].items, m[f])) == doc[f]
    {
      RemoveFirstAbsent(doc[f].items, m[f]);
    }
  }

  /** Pushing a value onto a list that lacks it and then pulling it again
      restores the document; on an absent field it leaves an empty list. */
  lemma PushThenPull(doc: Document, f: string, v: Value)
    requires ListOrAbsent(doc, f) && v !in ItemsOr(doc, f)
    ensures PushFields(doc, Obj(map[f := v])).Ok?
    ensures var pushed := PushFields(doc, Obj(map[f := v])).value;
      PullFields(pushed, Obj(map[f := v])) ==
        Ok(if f in doc then doc else doc[f := List([])])
  {
    var m := map[f := v];
    var pushed := PushFields(doc, Obj(m)).value;
    assert pushed == doc[f := List(ItemsOr(doc, f) + [v])];
    RemoveFirstAfterAppend(ItemsOr(doc, f), v);
    assert PullFields(pushed, Obj(m)).Ok?;
    var pulled := PullFields(pushed, Obj(m)).value;
    assert pulled == pushed[f := List(ItemsOr(doc, f))];
    assert pulled == doc[f := List(ItemsOr(doc, f))];
    if f in doc {
      assert doc[f] == List(ItemsOr(doc, f));
      assert doc == doc[f := List(ItemsOr(doc, f))];
    }
  }

  // ---------------------------------------------------------------------
  // Dispatch

  /** `update_one`'s change to the found document: the first of `$set`,
      `$push`, `$pull` present in `update` is applied, the others are not
      looked at; none of them present changes nothing. */
  function ApplyUpdate(doc: Document, update: map<string, Value>): Result<Document> {
    if "$set" in update then SetFields(doc, update["$set"])
    else if "$push" in update then PushFields(doc, update["$push"])
    else if "$pull" in update then PullFields(doc, update["$pull"])
    else Ok(doc)
  }

  /** The kinds are tried in the order `$set`, `$push`, `$pull`, and a
      later kind is ignored once an earlier one is present. */
  lemma UpdateKindPrecedence(doc: Document, update: map<string, Value>)
    ensures "$set" in update ==>
      ApplyUpdate(doc, update) == ApplyUpdate(doc, map["$set" := update["$set"]])
    ensures "$set" !in update && "$push" in update ==>
      ApplyUpdate(doc, update) == ApplyUpdate(doc, map["$push" := update["$push"]])
    ensures "$set" !in update && "$push" !in update && "$pull" in update ==>
      ApplyUpdate(doc, update) == ApplyUpdate(doc, map["$pull" := update["$pull"]])
    ensures "$set" !in update && "$push" !in update && "$pull" !in update ==>
      ApplyUpdate(doc, update) == Ok(doc)
  {
  }
}
