/**
 * The three kinds of application (loan, credit card, insurance) and the `status` array
 * their schemas declare: entries of a `state` from the kind's enum, `remarks`, and (loan
 * and credit only) the `missingDocuments` the agent asked for.
 */
module ApplicationStatus {
  import opened Wrappers
  import opened Json
  import opened Store

  datatype Kind = Loan | Credit | Insurance

  /** The `state` enum of the kind's schema. */
  function States(kind: Kind): (s: set<string>)
    ensures "pending" in s && "accepted" in s && "rejected" in s
  {
    if kind == Insurance then {"pending", "accepted", "rejected"}
    else {"pending", "underReview", "accepted", "rejected", "missingDocuments",
          "awaitingSignature", "awaitingDisbursement", "disbursed", "closed"}
  }

  /** Loan and credit entries carry `missingDocuments`; the insurance schema has no such field. */
  predicate TracksMissingDocuments(kind: Kind) {
    kind != Insurance
  }

  /** One status entry as the schema sees it; any other property (such as `updatedAt`) is not in the schema. */
  datatype Entry = Entry(state: string, remarks: seq<Json>, missingDocuments: seq<Json>)

  /** Entries of an insurance record never hold missing documents. */
  predicate WellFormed(kind: Kind, es: seq<Entry>) {
    !TracksMissingDocuments(kind) ==> forall i :: 0 <= i < |es| ==> es[i].missingDocuments == []
  }

  function EncodeEntry(kind: Kind, e: Entry): Json {
    var base := map["state" := Str(e.state), "remarks" := Arr(e.remarks)];
    Obj(if TracksMissingDocuments(kind) then base["missingDocuments" := Arr(e.missingDocuments)] else base)
  }

  /** An array field of a subdocument: absent means the default `[]`; anything but an array cannot be cast. */
  function ArrayField(o: Object, k: string): Option<seq<Json>> {
    if k !in o then Some([])
    else if o[k].Arr? then Some(o[k].items)
    else None
  }

  /**
   * Hydrating one entry: `state` defaults to "pending" and must be a string; extra
   * properties are dropped; an insurance entry has no `missingDocuments`.
   */
  function DecodeEntry(kind: Kind, j: Json): Option<Entry> {
    if !j.Obj? then None
    else
      var o := j.fields;
      var state := if "state" !in o then Some("pending") else if o["state"].Str? then Some(o["state"].s) else None;
      var remarks := ArrayField(o, "remarks");
      var missing := if TracksMissingDocuments(kind) then ArrayField(o, "missingDocuments") else Some([]);
      if state.Some? && remarks.Some? && missing.Some? then Some(Entry(state.value, remarks.value, missing.value))
      else None
  }

  function Encode(kind: Kind, es: seq<Entry>): (j: Json)
    ensures j.Arr? && |j.items| == |es|
    ensures forall i :: 0 <= i < |es| ==> j.items[i] == EncodeEntry(kind, es[i])
  {
    Arr(seq(|es|, i requires 0 <= i < |es| => EncodeEntry(kind, es[i])))
  }

  function DecodeAll(kind: Kind, items: seq<Json>): (r: Option<seq<Entry>>)
    ensures r.Some? ==> |r.value| == |items|
    ensures r.Some? ==> forall i :: 0 <= i < |items| ==> DecodeEntry(kind, items[i]) == Some(r.value[i])
    ensures r.None? ==> exists i :: 0 <= i < |items| && DecodeEntry(kind, items[i]).None?
    decreases |items|
  {
    if items == [] then Some([])
    else
      var init := DecodeAll(kind, items[..|items| - 1]);
      var last := DecodeEntry(kind, items[|items| - 1]);
      if init.Some? && last.Some? then Some(init.value + [last.value])
      else if init.None? then
        var i :| 0 <= i < |items| - 1 && DecodeEntry(kind, items[..|items| - 1][i]).None?;
        assert items[i] == items[..|items| - 1][i];
        None
      else None
  }

  /** The `status` path of a record read from the store: absent is `[]`; anything but an array of entries cannot be cast. */
  function Decode(kind: Kind, status: Option<Json>): Option<seq<Entry>> {
    if status.None? then Some([])
    else if status.value.Arr? then DecodeAll(kind, status.value.items)
    else None
  }

  function StatusOf(kind: Kind, doc: Doc): Option<seq<Entry>> {
    Decode(kind, Lookup(doc, "status"))
  }

  /** Every entry's state is in the kind's enum: what `save()` and `create()` validate. */
  predicate ValidStates(kind: Kind, es: seq<Entry>) {
    forall i :: 0 <= i < |es| ==> es[i].state in States(kind)
  }

  /** A record whose status the schema accepts on `save()`: it casts, and every state is in the enum. */
  predicate Persistable(kind: Kind, doc: Doc) {
    var es := StatusOf(kind, doc);
    es.Some? && ValidStates(kind, es.value)
  }

  /** The record as `save()` writes it: its status re-encoded with only the schema's properties. */
  function WithStatus(kind: Kind, doc: Doc, es: seq<Entry>): (d: Doc)
    ensures "status" in d && d["status"] == Encode(kind, es)
    ensures forall k :: k in doc && k != "status" ==> k in d && d[k] == doc[k]
    ensures forall k :: k in d ==> k in doc || k == "status"
  {
    doc["status" := Encode(kind, es)]
  }

  lemma DecodeEncodeEntry(kind: Kind, e: Entry)
    requires !TracksMissingDocuments(kind) ==> e.missingDocuments == []
    ensures DecodeEntry(kind, EncodeEntry(kind, e)) == Some(e)
  {
  }

  /** Hydrating what `save()` wrote gives back the same entries. */
  lemma {:induction false} DecodeEncode(kind: Kind, es: seq<Entry>)
    requires WellFormed(kind, es)
    ensures Decode(kind, Some(Encode(kind, es))) == Some(es)
  {
    var items := Encode(kind, es).items;
    forall i | 0 <= i < |es|
      ensures DecodeEntry(kind, items[i]) == Some(es[i])
    {
      DecodeEncodeEntry(kind, es[i]);
    }
    DecodeAllOk(kind, items, es);
  }

  lemma {:induction false} DecodeAllOk(kind: Kind, items: seq<Json>, es: seq<Entry>)
    requires |items| == |es|
    requires forall i :: 0 <= i < |es| ==> DecodeEntry(kind, items[i]) == Some(es[i])
    ensures DecodeAll(kind, items) == Some(es)
    decreases |items|
  {
    if items != [] {
      DecodeAllOk(kind, items[..|items| - 1], es[..|es| - 1]);
      assert es == es[..|es| - 1] + [es[|es| - 1]];
    }
  }

  /** The last entry, `status[status.length - 1]`, when there is one. */
  function Last(es: seq<Entry>): Option<Entry> {
    if es == [] then None else Some(es[|es| - 1])
  }

  /** Replaces the last entry: what in-place writes to `lastStatus` amount to. */
  function ReplaceLast(es: seq<Entry>, e: Entry): (r: seq<Entry>)
    requires es != []
    ensures |r| == |es| && r[|r| - 1] == e
    ensures forall i :: 0 <= i < |es| - 1 ==> r[i] == es[i]
  {
    es[..|es| - 1] + [e]
  }

  /** A remark as the handlers push it: `{ note, createdAt: new Date() }`. */
  function Remark(note: Json, now: int): Json {
    Obj(map["note" := note, "createdAt" := Num(now)])
  }
}
