/**
 * The document store behind the Mongoose models, reduced to what the handlers rely on:
 * a collection of documents keyed by `_id` in insertion ("natural") order, equality
 * filters, the timestamps the schemas turn on with `{ timestamps: true }`, and the
 * skip/limit window of a cursor.
 */
module Store {
  import opened Wrappers
  import opened Json
  import opened Sorting

  /** The text form of a document's `_id`. */
  type Id = string

  /** A stored document; its `_id` is the key it is stored under, never a field. */
  type Doc = Object

  predicate IsHexDigit(c: char) {
    '0' <= c <= '9' || 'a' <= c <= 'f' || 'A' <= c <= 'F'
  }

  /** The text form of an ObjectId: 24 hexadecimal digits. */
  predicate IsObjectId(s: string) {
    |s| == 24 && forall i :: 0 <= i < |s| ==> IsHexDigit(s[i])
  }

  /**
   * The filter keys this model evaluates: plain top-level field names. Query operators
   * (`$text`) and dotted paths (`status.state`) are not evaluated and match every document.
   */
  predicate Evaluated(k: string) {
    k != "" && k[0] != '$' && '.' !in k
  }

  /**
   * `{k: v}` on one document: `_id` compares with the key, an array field matches when it
   * holds `v`, and `null` matches a missing field.
   */
  predicate FieldMatches(id: Id, doc: Doc, k: string, v: Json) {
    if k == "_id" then v == Str(id)
    else if !Evaluated(k) then true
    else if k in doc then doc[k] == v || (doc[k].Arr? && v in doc[k].items)
    else v == Null
  }

  predicate Matches(id: Id, doc: Doc, filter: Object) {
    forall k :: k in filter ==> FieldMatches(id, doc, k, filter[k])
  }

  /** An `_id` that is not an ObjectId cannot be cast, and the query throws. */
  predicate CastFails(filter: Object) {
    "_id" in filter && !(filter["_id"].Str? && IsObjectId(filter["_id"].s))
  }

  /** No id is listed twice. */
  predicate Distinct(ids: seq<Id>) {
    forall i, j :: 0 <= i < j < |ids| ==> ids[i] != ids[j]
  }

  /** `xs` is `ys` with some items left out, the rest in their order. */
  ghost predicate Subsequence<T>(xs: seq<T>, ys: seq<T>)
    decreases |ys|
  {
    if ys == [] then xs == []
    else (xs != [] && xs[|xs| - 1] == ys[|ys| - 1] && Subsequence(xs[..|xs| - 1], ys[..|ys| - 1])) ||
         Subsequence(xs, ys[..|ys| - 1])
  }

  /** The ids of the documents that match `filter`, in natural order. */
  function Select(docs: map<Id, Doc>, order: seq<Id>, filter: Object): (ids: seq<Id>)
    ensures |ids| <= |order|
    ensures forall id :: id in ids <==> id in order && id in docs && Matches(id, docs[id], filter)
    ensures Subsequence(ids, order)
    ensures Distinct(order) ==> Distinct(ids)
    decreases |order|
  {
    if order == [] then []
    else
      var rest := Select(docs, order[..|order| - 1], filter);
      var id := order[|order| - 1];
      assert order == order[..|order| - 1] + [id];
      if id in docs && Matches(id, docs[id], filter) then
        assert (rest + [id])[..|rest|] == rest;
        assert Distinct(order) ==> id !in order[..|order| - 1];
        rest + [id]
      else rest
  }

  /** When nothing is selected, no id of the order has a matching document. */
  lemma NoneSelected(docs: map<Id, Doc>, order: seq<Id>, filter: Object)
    requires Select(docs, order, filter) == []
    ensures forall j :: 0 <= j < |order| ==> !(order[j] in docs && Matches(order[j], docs[order[j]], filter))
  {
    forall j | 0 <= j < |order|
      ensures !(order[j] in docs && Matches(order[j], docs[order[j]], filter))
    {
      assert order[j] in order;
    }
  }

  /** The first selected id is the first id of the order whose document matches: `i` is its index. */
  lemma {:induction false} SelectFirst(docs: map<Id, Doc>, order: seq<Id>, filter: Object) returns (i: nat)
    requires Select(docs, order, filter) != []
    ensures i < |order| && order[i] == Select(docs, order, filter)[0]
    ensures forall j :: 0 <= j < i ==> !(order[j] in docs && Matches(order[j], docs[order[j]], filter))
    decreases |order|
  {
    var init := order[..|order| - 1];
    if Select(docs, init, filter) != [] {
      i := SelectFirst(docs, init, filter);
      FirstOfInit(docs, order, init, filter, i);
    } else {
      i := |order| - 1;
      FirstIsLast(docs, order, filter);
    }
  }

  /** A first match among all but the last id stays the first match of the whole order. */
  lemma FirstOfInit(docs: map<Id, Doc>, order: seq<Id>, init: seq<Id>, filter: Object, i: nat)
    requires order != [] && init == order[..|order| - 1] && Select(docs, init, filter) != []
    requires i < |init| && init[i] == Select(docs, init, filter)[0]
    requires forall j :: 0 <= j < i ==> !(init[j] in docs && Matches(init[j], docs[init[j]], filter))
    ensures Select(docs, order, filter) != [] && order[i] == Select(docs, order, filter)[0]
    ensures forall j :: 0 <= j < i ==> !(order[j] in docs && Matches(order[j], docs[order[j]], filter))
  {
    var last := order[|order| - 1];
    var rest := Select(docs, init, filter);
    assert Select(docs, order, filter)[0] == rest[0] by {
      if last in docs && Matches(last, docs[last], filter) {
        assert Select(docs, order, filter) == rest + [last];
      } else {
        assert Select(docs, order, filter) == rest;
      }
    }
    assert forall j :: 0 <= j < i ==> order[j] == init[j];
  }

  /** When nothing before the last id matches, a non-empty selection starts with the last id. */
  lemma FirstIsLast(docs: map<Id, Doc>, order: seq<Id>, filter: Object)
    requires Select(docs, order, filter) != [] && Select(docs, order[..|order| - 1], filter) == []
    ensures order[|order| - 1] == Select(docs, order, filter)[0]
    ensures forall j :: 0 <= j < |order| - 1 ==> !(order[j] in docs && Matches(order[j], docs[order[j]], filter))
  {
    var init := order[..|order| - 1];
    var last := order[|order| - 1];
    assert Select(docs, order, filter) == [last];
    NoneSelected(docs, init, filter);
    assert forall j :: 0 <= j < |order| - 1 ==> order[j] == init[j];
  }

  /** A list without repeats has as many distinct items as it is long. */
  lemma {:induction false} DistinctCount(ids: seq<Id>)
    requires Distinct(ids)
    ensures |set id | id in ids| == |ids|
    decreases |ids|
  {
    if ids != [] {
      var init := ids[..|ids| - 1];
      var last := ids[|ids| - 1];
      assert ids == init + [last];
      DistinctCount(init);
      assert (set id | id in ids) == (set id | id in init) + {last};
      assert last !in (set id | id in init);
    }
  }

  /** The `createdAt` of a document as a sort key (documents written here always hold a number). */
  function CreatedAt(doc: Doc): int {
    if "createdAt" in doc && doc["createdAt"].Num? then doc["createdAt"].n else 0
  }

  /** `find(filter).sort({ createdAt: -1 })`: newest first, ties in natural order. */
  function NewestFirst(docs: map<Id, Doc>, ids: seq<Id>): (r: seq<Id>)
    ensures multiset(r) == multiset(ids)
    ensures forall i, j :: 0 <= i < j < |r| && r[i] in docs && r[j] in docs ==>
      CreatedAt(docs[r[i]]) >= CreatedAt(docs[r[j]])
  {
    var key := (id: Id) => if id in docs then CreatedAt(docs[id]) else 0;
    var r := SortDesc(ids, key);
    assert forall i, j :: 0 <= i < j < |r| ==> key(r[i]) >= key(r[j]);
    r
  }

  /**
   * `.skip(skip).limit(limit)` on a cursor: a negative skip is rejected by the server
   * (`None`), a zero limit means no limit, and a negative limit `-n` returns at most `n`
   * documents in a single batch.
   */
  function Window<T>(xs: seq<T>, skip: int, limit: int): (r: Option<seq<T>>)
    ensures r.None? <==> skip < 0
    ensures r.Some? ==> forall i :: 0 <= i < |r.value| ==> skip + i < |xs| && r.value[i] == xs[skip + i]
    ensures r.Some? ==>
      var rest := if skip <= |xs| then |xs| - skip else 0;
      var size := if limit < 0 then -limit else limit;
      |r.value| == if limit == 0 || rest <= size then rest else size
  {
    if skip < 0 then None
    else
      var from := if skip <= |xs| then skip else |xs|;
      var size := if limit < 0 then -limit else limit;
      var to := if limit == 0 || from + size > |xs| then |xs| else from + size;
      Some(xs[from..to])
  }

  /** The document Mongoose inserts for `fields`: the `_id` becomes the key, and the timestamps are set. */
  function Created(fields: Doc, now: int): (d: Doc)
    ensures "_id" !in d
    ensures "createdAt" in d && "updatedAt" in d
    ensures d["createdAt"] == if "createdAt" in fields && fields["createdAt"].Num? then fields["createdAt"] else Num(now)
    ensures d["updatedAt"] == d["createdAt"]
    ensures forall k :: k in fields && k != "_id" && k != "createdAt" && k != "updatedAt" ==> k in d && d[k] == fields[k]
    ensures forall k :: k in d ==> k in fields || k == "createdAt" || k == "updatedAt"
  {
    var created := if "createdAt" in fields && fields["createdAt"].Num? then fields["createdAt"] else Num(now);
    (fields - {"_id"})["createdAt" := created]["updatedAt" := created]
  }

  /**
   * `doc.save()` of a document that was read and changed in memory: `createdAt` is
   * immutable, so the stored one survives, and `updatedAt` becomes `now`.
   */
  function Saved(stored: Doc, changed: Doc, now: int): (d: Doc)
    ensures "_id" !in d
    ensures "updatedAt" in d && d["updatedAt"] == Num(now)
    ensures "createdAt" in d <==> "createdAt" in stored
    ensures "createdAt" in stored ==> d["createdAt"] == stored["createdAt"]
    ensures forall k :: k in changed && k != "_id" && k != "createdAt" && k != "updatedAt" ==> k in d && d[k] == changed[k]
    ensures forall k :: k in d ==> k in changed || k == "createdAt" || k == "updatedAt"
  {
    var base := changed - {"_id", "createdAt"};
    var kept := if "createdAt" in stored then base["createdAt" := stored["createdAt"]] else base;
    kept["updatedAt" := Num(now)]
  }

  /**
   * The fields an update document sets: its plain top-level keys plus the contents of a
   * `$set` operator (other operators are not modelled).
   */
  function SetOf(update: Object): (s: Object)
    ensures forall k :: k in update && Evaluated(k) ==> k in s && s[k] == update[k]
  {
    var plain := map k | k in update && Evaluated(k) :: update[k];
    if "$set" in update && update["$set"].Obj? then update["$set"].fields + plain else plain
  }

  /**
   * `findOneAndUpdate(filter, update)` on the matched document: the set fields overwrite,
   * `_id` and the immutable `createdAt` are left alone, and `updatedAt` becomes `now`.
   */
  function Updated(stored: Doc, update: Object, now: int): (d: Doc)
    ensures "updatedAt" in d && d["updatedAt"] == Num(now)
    ensures "createdAt" in d <==> "createdAt" in stored
    ensures "createdAt" in stored ==> d["createdAt"] == stored["createdAt"]
    ensures forall k :: k in SetOf(update) && k != "_id" && k != "createdAt" && k != "updatedAt" ==> k in d && d[k] == SetOf(update)[k]
    ensures forall k :: k in stored && k !in SetOf(update) && k != "updatedAt" ==> k in d && d[k] == stored[k]
  {
    (stored + (SetOf(update) - {"_id", "createdAt", "updatedAt"}))["updatedAt" := Num(now)]
  }

  /**
   * Updating a freshly saved record with fields it already holds changes nothing: the
   * second write of a double write is redundant.
   */
  lemma {:induction false} UpdateAfterSaveRedundant(stored: Doc, changed: Doc, update: Object, now: int)
    requires forall k :: k in update ==> Evaluated(k) && k in changed && changed[k] == update[k]
    ensures Updated(Saved(stored, changed, now), update, now) == Saved(stored, changed, now)
  {
    var saved := Saved(stored, changed, now);
    var final := Updated(saved, update, now);
    assert SetOf(update) == update by {
      assert "$set" !in update;
    }
    forall k | k in final
      ensures k in saved && final[k] == saved[k]
    {
    }
    assert final.Keys == saved.Keys;
  }

  /** `order` without `x`. */
  function Erase(order: seq<Id>, x: Id): (r: seq<Id>)
    ensures forall y :: y in r <==> y in order && y != x
    ensures (forall i, j :: 0 <= i < j < |order| ==> order[i] != order[j]) ==>
      (forall i, j :: 0 <= i < j < |r| ==> r[i] != r[j])
    decreases |order|
  {
    if order == [] then []
    else
      var rest := Erase(order[..|order| - 1], x);
      var last := order[|order| - 1];
      assert order == order[..|order| - 1] + [last];
      if last == x then rest
      else
        assert (forall i, j :: 0 <= i < j < |order| ==> order[i] != order[j]) ==> last !in rest;
        rest + [last]
  }

  /** Over a collection listing each stored id once, the matches listed are as many as the matching documents. */
  lemma CountMatches(docs: map<Id, Doc>, order: seq<Id>, filter: Object)
    ensures Distinct(order) && (forall id :: id in docs <==> id in order) ==>
      |Select(docs, order, filter)| == |set id | id in docs && Matches(id, docs[id], filter)|
  {
    if Distinct(order) && (forall id :: id in docs <==> id in order) {
      var ids := Select(docs, order, filter);
      DistinctCount(ids);
      assert (set id | id in ids) == (set id | id in docs && Matches(id, docs[id], filter));
    }
  }

  /** One Mongoose model's collection. */
  class Collection {
    var docs: map<Id, Doc>
    /** The `_id`s in insertion order. */
    var order: seq<Id>

    ghost predicate Valid()
      reads this
    {
      (forall i, j :: 0 <= i < j < |order| ==> order[i] != order[j]) &&
      (forall id :: id in docs <==> id in order)
    }

    constructor ()
      ensures Valid()
      ensures docs == map[] && order == []
    {
      docs := map[];
      order := [];
    }

    /** `Model.find(filter)` in natural order. */
    function Find(filter: Object): (ids: seq<Id>)
      reads this
      ensures forall id :: id in ids <==> id in order && id in docs && Matches(id, docs[id], filter)
      ensures Subsequence(ids, order)
      ensures Valid() ==> Distinct(ids)
    {
      Select(docs, order, filter)
    }

    /** `Model.findOne(filter)`: the first match in natural order. */
    function FindFirst(filter: Object): (r: Option<Id>)
      reads this
      ensures r.Some? ==> r.value in docs && Matches(r.value, docs[r.value], filter)
      ensures r.Some? ==>
        exists i :: 0 <= i < |order| && order[i] == r.value &&
          (forall j :: 0 <= j < i ==> !(order[j] in docs && Matches(order[j], docs[order[j]], filter)))
      ensures r.None? ==> forall id :: id in docs && id in order ==> !Matches(id, docs[id], filter)
    {
      var ids := Find(filter);
      assert ids != [] ==>
        exists i :: 0 <= i < |order| && order[i] == ids[0] &&
          (forall j :: 0 <= j < i ==> !(order[j] in docs && Matches(order[j], docs[order[j]], filter))) by {
        if ids != [] {
          var i := SelectFirst(docs, order, filter);
        }
      }
      if ids == [] then None else Some(ids[0])
    }

    /** `Model.countDocuments(filter)`. */
    function Count(filter: Object): (n: nat)
      reads this
      ensures n <= |order|
      ensures Valid() ==> n == |set id | id in docs && Matches(id, docs[id], filter)|
    {
      CountMatches(docs, order, filter);
      |Find(filter)|
    }

    /** `Model.create(fields)` / `new Model(fields).save()` under a fresh ObjectId. */
    method Insert(id: Id, fields: Doc, now: int)
      requires Valid()
      requires id !in docs
      modifies this
      ensures Valid()
      ensures docs == old(docs)[id := Created(fields, now)]
      ensures order == old(order) + [id]
    {
      docs := docs[id := Created(fields, now)];
      order := order + [id];
    }

    /** `doc.save()` of a document read earlier and changed in memory. */
    method Save(id: Id, changed: Doc, now: int)
      requires Valid()
      requires id in docs
      modifies this
      ensures Valid()
      ensures docs == old(docs)[id := Saved(old(docs)[id], changed, now)]
      ensures order == old(order)
    {
      docs := docs[id := Saved(docs[id], changed, now)];
    }

    /** The write of `findOneAndUpdate` / `findByIdAndUpdate` once the document is known. */
    method Update(id: Id, update: Object, now: int)
      requires Valid()
      requires id in docs
      modifies this
      ensures Valid()
      ensures docs == old(docs)[id := Updated(old(docs)[id], update, now)]
      ensures order == old(order)
    {
      docs := docs[id := Updated(docs[id], update, now)];
    }

    /** The write of `findOneAndDelete` / `findByIdAndDelete` once the document is known. */
    method Delete(id: Id)
      requires Valid()
      modifies this
      ensures Valid()
      ensures docs == old(docs) - {id}
      ensures order == Erase(old(order), id)
    {
      docs := docs - {id};
      order := Erase(order, id);
    }
  }

  /** A document as a response carries it: its fields plus `_id`. */
  function WithId(id: Id, doc: Doc): (j: Json)
    ensures j.Obj? && "_id" in j.fields && j.fields["_id"] == Str(id)
  {
    Obj(doc["_id" := Str(id)])
  }

  /** A deletion removes exactly the matched document; every other one is untouched. */
  lemma FindAfterErase(docs: map<Id, Doc>, order: seq<Id>, x: Id, filter: Object, y: Id)
    ensures y in Select(docs - {x}, Erase(order, x), filter) <==> y in Select(docs, order, filter) && y != x
  {
  }
}
