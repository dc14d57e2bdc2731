/**
 * The customer `updateById.pre` hook of loan and credit applications
 * (controller/loan.js:37-94, controller/credit.js:36-92). It loads the record by the
 * engine's filter, lets a customer through only while the last status entry asks for
 * missing documents, writes the body's `missingDocuments` and `remark` into that last
 * entry, drops `state`, merges `documents`, assigns every other body field onto the
 * record and saves it. Whatever is left of the body goes on to the engine's own
 * `findOneAndUpdate`.
 */
module CustomerUpdate {
  import opened Wrappers
  import opened Json
  import opened Store
  import opened Http
  import opened ApplicationStatus
  import opened DocumentMerge
  import opened Hooks

  /**
   * Which body fields the hook removes before `Object.assign`: as written it removes only
   * the ones it handled, so `status` passes through; corrected, it also removes `status`
   * and every key the store would read as an operator or a path.
   */
  datatype Variant = AsWritten | Corrected

  /** `{ message }` of the 404 the hook answers with. */
  function NotFoundMessage(kind: Kind): string {
    if kind == Credit then "Credit not found" else "Loan not found"
  }

  const GateMessage := "Cannot update. Status must be 'missingDocuments'."

  /** The body fields the hook consumes itself (each only when truthy, `missingDocuments` only when an array). */
  function Consumed(payload: Object): (ks: set<string>)
    ensures ks <= payload.Keys
  {
    (if TruthyAt(payload, "missingDocuments") && payload["missingDocuments"].Arr? then {"missingDocuments"} else {}) +
    (if TruthyAt(payload, "remark") then {"remark"} else {}) +
    (if TruthyAt(payload, "state") then {"state"} else {}) +
    (if TruthyAt(payload, "documents") then {"documents"} else {})
  }

  /** What is left of the body after the hook's `delete`s: assigned onto the record, then handed to the engine. */
  function Leftover(payload: Object, variant: Variant): (rest: Object)
    ensures forall k :: k in rest ==> k in payload && rest[k] == payload[k] && k !in Consumed(payload)
    ensures variant == Corrected ==> "status" !in rest && forall k :: k in rest ==> Evaluated(k)
    ensures variant == AsWritten ==> forall k :: k in payload && k !in Consumed(payload) ==> k in rest
  {
    if variant == AsWritten then payload - Consumed(payload)
    else map k | k in payload && k !in Consumed(payload) && k != "status" && Evaluated(k) :: payload[k]
  }

  /** The last entry after the hook wrote the body's `missingDocuments` and `remark` into it. */
  function EditedEntry(last: Entry, payload: Object, now: int): (e: Entry)
    ensures e.state == last.state
    ensures e.remarks == if TruthyAt(payload, "remark") then last.remarks + [Remark(payload["remark"], now)] else last.remarks
    ensures e.missingDocuments ==
      if TruthyAt(payload, "missingDocuments") && payload["missingDocuments"].Arr? then payload["missingDocuments"].items
      else last.missingDocuments
  {
    var missing := if TruthyAt(payload, "missingDocuments") && payload["missingDocuments"].Arr?
      then payload["missingDocuments"].items else last.missingDocuments;
    var remarks := if TruthyAt(payload, "remark") then last.remarks + [Remark(payload["remark"], now)] else last.remarks;
    Entry(last.state, remarks, missing)
  }

  /** The status after the hook's writes into the last entry (there are none without one). */
  function EditedStatus(es: seq<Entry>, payload: Object, now: int): (r: seq<Entry>)
    ensures |r| == |es|
    ensures forall i :: 0 <= i < |es| ==> r[i].state == es[i].state
  {
    if es == [] then es else ReplaceLast(es, EditedEntry(es[|es| - 1], payload, now))
  }

  /** The record after the `documents` loop (only when the body's `documents` is truthy). */
  function WithMergedDocuments(doc: Doc, payload: Object): (d: Doc)
    ensures forall k :: k in doc && k != "documents" ==> k in d && d[k] == doc[k]
  {
    if TruthyAt(payload, "documents")
    then doc["documents" := Obj(CustomerMerged(DocumentsOf(doc), OwnProps(payload["documents"])))]
    else doc
  }

  /** The record as the hook changes it in memory, before `save()`. */
  function Changed(kind: Kind, doc: Doc, es: seq<Entry>, payload: Object, variant: Variant, now: int): (d: Doc)
    ensures variant == Corrected ==> "status" in d && d["status"] == Encode(kind, EditedStatus(es, payload, now))
  {
    Assign(WithMergedDocuments(WithStatus(kind, doc, EditedStatus(es, payload, now)), payload), Leftover(payload, variant))
  }

  /** The outcome of the hook: a response it sent, an exception, or the record it saved and the body it leaves. */
  datatype Step = Respond(status: int, body: Json) | Fail | Proceed(id: Id, changed: Doc, rest: Object)

  /**
   * The hook on a given store. It throws when the filter cannot be cast, and otherwise
   * answers 404 when nothing matches or goes on with the first match.
   */
  function Pre(kind: Kind, docs: map<Id, Doc>, order: seq<Id>, filter: Object, payload: Object,
               user: Option<Actor>, variant: Variant, now: int): (step: Step)
    ensures step.Proceed? ==> step.id in docs && Matches(step.id, docs[step.id], filter)
  {
    if CastFails(filter) then Fail
    else
      var found := Select(docs, order, filter);
      if found == [] then Respond(404, Message(NotFoundMessage(kind)))
      else
        assert found[0] in found;
        PreOn(kind, found[0], docs[found[0]], payload, user, variant, now)
  }

  /** Whether the hook must write into a last entry: `missingDocuments` (an array) or `remark` is given. */
  predicate WritesLastEntry(payload: Object) {
    (TruthyAt(payload, "missingDocuments") && payload["missingDocuments"].Arr?) || TruthyAt(payload, "remark")
  }

  /**
   * The hook on the record it found. It throws when the stored status cannot be cast,
   * when there is no caller (`req.user.role`), when it must write into a last entry that
   * does not exist, and when `save()` rejects the record.
   */
  function PreOn(kind: Kind, id: Id, stored: Doc, payload: Object, user: Option<Actor>, variant: Variant, now: int): (step: Step)
    ensures step.Proceed? ==>
      (step.id == id && StatusOf(kind, stored).Some? && Persistable(kind, step.changed) &&
       step.changed == Changed(kind, stored, StatusOf(kind, stored).value, payload, variant, now) &&
       step.rest == Leftover(payload, variant))
  {
    var es := StatusOf(kind, stored);
    if es.None? then Fail
    else if user.None? then Fail
    else if user.value.role == "customer" && (es.value == [] || es.value[|es.value| - 1].state != "missingDocuments") then
      Respond(403, Message(GateMessage))
    else AfterGate(kind, id, stored, es.value, payload, variant, now)
  }

  /** The hook past the gate: the edits (which throw without a last entry to write into), then `save()`. */
  function AfterGate(kind: Kind, id: Id, stored: Doc, es: seq<Entry>, payload: Object, variant: Variant, now: int): (step: Step)
    ensures step.Proceed? ==>
      step.id == id && Persistable(kind, step.changed) &&
      step.changed == Changed(kind, stored, es, payload, variant, now) && step.rest == Leftover(payload, variant)
  {
    if es == [] && WritesLastEntry(payload) then Fail
    else
      var changed := Changed(kind, stored, es, payload, variant, now);
      if !Persistable(kind, changed) then Fail
      else Proceed(id, changed, Leftover(payload, variant))
  }

  /** The store after the hook: only a `Proceed` saves. */
  function StoreAfter(docs: map<Id, Doc>, step: Step, now: int): map<Id, Doc>
    requires step.Proceed? ==> step.id in docs
  {
    if step.Proceed? then docs[step.id := Saved(docs[step.id], step.changed, now)] else docs
  }

  /** The record after the whole customer update: the hook's save, then the engine's `findOneAndUpdate` with the leftover body. */
  function AfterBothWrites(stored: Doc, step: Step, now: int): Doc
    requires step.Proceed?
  {
    Updated(Saved(stored, step.changed, now), step.rest, now)
  }

  /** The states of status entries, in order. */
  function StateNames(es: seq<Entry>): (names: seq<string>)
    ensures |names| == |es| && forall i :: 0 <= i < |es| ==> names[i] == es[i].state
  {
    seq(|es|, i requires 0 <= i < |es| => es[i].state)
  }

  /** The states of a record's status entries, in order. */
  function StatesOf(kind: Kind, doc: Doc): Option<seq<string>> {
    var es := StatusOf(kind, doc);
    if es.None? then None else Some(StateNames(es.value))
  }

  /**
   * The gate: a customer's update of a record whose last entry is not `missingDocuments`
   * (or that has no entry) is answered with 403 and saves nothing.
   */
  lemma CustomerGate(kind: Kind, id: Id, stored: Doc, payload: Object, actor: Actor, variant: Variant, now: int)
    requires actor.role == "customer"
    requires StatusOf(kind, stored).Some?
    requires Last(StatusOf(kind, stored).value).None? || Last(StatusOf(kind, stored).value).value.state != "missingDocuments"
    ensures PreOn(kind, id, stored, payload, Some(actor), variant, now) == Respond(403, Message(GateMessage))
  {
  }

  /**
   * What the hook writes into the status: the entries before the last are untouched, the
   * last keeps its state, takes an array `missingDocuments`, and gains the remark, and the
   * length is unchanged.
   */
  lemma {:induction false} CustomerEditsLastEntry(kind: Kind, doc: Doc, es: seq<Entry>, payload: Object, variant: Variant, now: int)
    requires es != []
    requires WellFormed(kind, es)
    requires !TracksMissingDocuments(kind) ==> !(TruthyAt(payload, "missingDocuments") && payload["missingDocuments"].Arr?)
    requires variant == AsWritten ==> "status" !in payload
    ensures var after := StatusOf(kind, Changed(kind, doc, es, payload, variant, now));
      after.Some? && |after.value| == |es| &&
      (forall i :: 0 <= i < |es| - 1 ==> after.value[i] == es[i]) &&
      after.value[|es| - 1] == EditedEntry(es[|es| - 1], payload, now)
  {
    var es1 := EditedStatus(es, payload, now);
    assert WellFormed(kind, es1);
    DecodeEncode(kind, es1);
    StatusSurvivesAssign(kind, doc, es, payload, variant, now);
  }

  /** The edited status survives `Object.assign` when the leftover body holds no `status`. */
  lemma StatusSurvivesAssign(kind: Kind, doc: Doc, es: seq<Entry>, payload: Object, variant: Variant, now: int)
    requires variant == AsWritten ==> "status" !in payload
    ensures var d := Changed(kind, doc, es, payload, variant, now);
      "status" in d && d["status"] == Encode(kind, EditedStatus(es, payload, now))
  {
    assert "status" !in Leftover(payload, variant);
  }

  /** The status the hook saves, when it proceeds: the edited one. */
  lemma {:induction false} ProceedStatus(kind: Kind, id: Id, stored: Doc, payload: Object, user: Option<Actor>, now: int)
    requires StatusOf(kind, stored).Some? ==> WellFormed(kind, StatusOf(kind, stored).value)
    ensures var step := PreOn(kind, id, stored, payload, user, Corrected, now);
      step.Proceed? ==>
        StatusOf(kind, stored).Some? &&
        "status" in step.changed &&
        step.changed["status"] == Encode(kind, EditedStatus(StatusOf(kind, stored).value, payload, now)) &&
        "status" !in SetOf(step.rest)
  {
    var step := PreOn(kind, id, stored, payload, user, Corrected, now);
    if step.Proceed? {
      assert step.rest == Leftover(payload, Corrected);
      assert "$set" !in step.rest;
    }
  }

  /**
   * The corrected hook never changes a state, through either of the two writes: every
   * entry keeps the state it had before the update.
   */
  lemma {:induction false} CorrectedKeepsStates(kind: Kind, id: Id, stored: Doc, payload: Object, user: Option<Actor>, now: int)
    ensures var step := PreOn(kind, id, stored, payload, user, Corrected, now);
      step.Proceed? ==> StatesOf(kind, AfterBothWrites(stored, step, now)) == StatesOf(kind, stored)
  {
    var step := PreOn(kind, id, stored, payload, user, Corrected, now);
    if step.Proceed? {
      SecondWriteRedundant(kind, id, stored, payload, user, now);
      var es := StatusOf(kind, stored).value;
      var es1 := EditedStatus(es, payload, now);
      StatesThroughSave(kind, stored, step.changed, now, es, es1);
    }
  }

  /** A saved status that encodes entries with the same states as `es` decodes to those states. */
  lemma {:induction false} StatesThroughSave(kind: Kind, stored: Doc, changed: Doc, now: int, es: seq<Entry>, es1: seq<Entry>)
    requires "status" in changed && changed["status"] == Encode(kind, es1)
    requires StatusOf(kind, changed).Some?
    requires |es1| == |es| && forall i :: 0 <= i < |es| ==> es1[i].state == es[i].state
    ensures StatesOf(kind, Saved(stored, changed, now)) == Some(StateNames(es))
  {
    var final := Saved(stored, changed, now);
    assert Lookup(final, "status") == Lookup(changed, "status");
    var after := StatusOf(kind, changed).value;
    StatesMatch(kind, es, es1, after);
    assert StateNames(after) == StateNames(es);
  }

  /** Decoding what was encoded keeps each entry's state. */
  lemma StatesMatch(kind: Kind, es: seq<Entry>, es1: seq<Entry>, after: seq<Entry>)
    requires |es1| == |es| && forall i :: 0 <= i < |es| ==> es1[i].state == es[i].state
    requires Decode(kind, Some(Encode(kind, es1))) == Some(after)
    ensures |after| == |es| && forall i :: 0 <= i < |es| ==> after[i].state == es[i].state
  {
    forall i | 0 <= i < |es|
      ensures after[i].state == es[i].state
    {
      assert DecodeEntry(kind, EncodeEntry(kind, es1[i])) == Some(after[i]);
    }
  }

  /**
   * The hook as written lets a customer rewrite the whole status: a record waiting for
   * documents, updated with a body whose `status` holds one `disbursed` entry, is saved
   * with that entry as its only state.
   */
  lemma {:induction false} StatusPassesThrough(id: Id, now: int)
    ensures var stored := map["status" := Encode(Loan, [Entry("missingDocuments", [], [])])];
      var payload := map["status" := Arr([Obj(map["state" := Str("disbursed")])])];
      var step := PreOn(Loan, id, stored, payload, Some(Actor("64b7f0c2a1b2c3d4e5f60719", "customer")), AsWritten, now);
      step.Proceed? && StatesOf(Loan, step.changed) == Some(["disbursed"])
  {
    var waiting := [Entry("missingDocuments", [], [])];
    var stored := map["status" := Encode(Loan, waiting)];
    var items := [Obj(map["state" := Str("disbursed")])];
    var payload := map["status" := Arr(items)];
    DecodeEncode(Loan, waiting);
    var changed := Changed(Loan, stored, waiting, payload, AsWritten, now);
    AsWrittenKeepsStatus(Loan, stored, waiting, payload, now);
    DisbursedOnly(items);
    var disbursed := [Entry("disbursed", [], [])];
    assert StatusOf(Loan, changed) == Some(disbursed);
    assert "disbursed" in States(Loan);
    Proceeds(Loan, id, stored, waiting, payload, Actor("64b7f0c2a1b2c3d4e5f60719", "customer"), AsWritten, now);
    assert StateNames(disbursed) == ["disbursed"];
  }

  /** The hook proceeds on a record waiting for documents whenever `save()` accepts the result. */
  lemma Proceeds(kind: Kind, id: Id, stored: Doc, es: seq<Entry>, payload: Object, actor: Actor, variant: Variant, now: int)
    requires StatusOf(kind, stored) == Some(es)
    requires es != [] && es[|es| - 1].state == "missingDocuments"
    requires Persistable(kind, Changed(kind, stored, es, payload, variant, now))
    ensures PreOn(kind, id, stored, payload, Some(actor), variant, now) ==
      Proceed(id, Changed(kind, stored, es, payload, variant, now), Leftover(payload, variant))
  {
  }

  /** As written, a body `status` the hook does not consume lands on the record unchanged. */
  lemma AsWrittenKeepsStatus(kind: Kind, doc: Doc, es: seq<Entry>, payload: Object, now: int)
    requires "status" in payload
    ensures var d := Changed(kind, doc, es, payload, AsWritten, now);
      "status" in d && d["status"] == payload["status"]
  {
    assert "status" !in Consumed(payload);
    assert "status" in Leftover(payload, AsWritten);
  }

  lemma DisbursedOnly(items: seq<Json>)
    requires items == [Obj(map["state" := Str("disbursed")])]
    ensures DecodeAll(Loan, items) == Some([Entry("disbursed", [], [])])
  {
    assert DecodeEntry(Loan, items[0]) == Some(Entry("disbursed", [], []));
    DecodeAllOk(Loan, items, [Entry("disbursed", [], [])]);
  }

  /**
   * The engine's second write is redundant after the hook's save: the leftover body is
   * already on the saved record, so `findOneAndUpdate` changes nothing.
   */
  lemma {:induction false} SecondWriteRedundant(kind: Kind, id: Id, stored: Doc, payload: Object, user: Option<Actor>, now: int)
    ensures var step := PreOn(kind, id, stored, payload, user, Corrected, now);
      step.Proceed? ==> AfterBothWrites(stored, step, now) == Saved(stored, step.changed, now)
  {
    var step := PreOn(kind, id, stored, payload, user, Corrected, now);
    if step.Proceed? {
      var rest := step.rest;
      assert forall k :: k in rest ==> Evaluated(k) && k in step.changed && step.changed[k] == rest[k];
      UpdateAfterSaveRedundant(stored, step.changed, rest, now);
    }
  }

  /**
   * The hook's in-memory edits of the last entry, statement by statement: `missingDocuments`
   * and `remark` are written into it and deleted from the body, `state` is deleted.
   * `ok` is false where the source dereferences a last entry that does not exist.
   */
  method EditLastEntry(status: seq<Entry>, payload: Object, now: int) returns (edited: seq<Entry>, rest: Object, ok: bool)
    ensures ok <==> status != [] || !WritesLastEntry(payload)
    ensures ok ==> edited == EditedStatus(status, payload, now) && rest == payload - (Consumed(payload) - {"documents"})
  {
    rest := payload;
    var editing := status != [];
    var last := if editing then status[|status| - 1] else Entry("pending", [], []);
    if TruthyAt(rest, "missingDocuments") && rest["missingDocuments"].Arr? {
      if !editing {
        return status, rest, false;
      }
      last := last.(missingDocuments := rest["missingDocuments"].items);
      rest := rest - {"missingDocuments"};
    }
    if TruthyAt(rest, "remark") {
      if !editing {
        return status, rest, false;
      }
      last := last.(remarks := last.remarks + [Remark(rest["remark"], now)]);
      rest := rest - {"remark"};
    }
    if TruthyAt(rest, "state") {
      rest := rest - {"state"};
    }
    edited := status;
    if editing {
      assert last == EditedEntry(status[|status| - 1], payload, now);
      edited := ReplaceLast(status, last);
    }
    ok := true;
  }

  /** The hook: the lookup, then the rest on the record found. */
  method RunPre(kind: Kind, records: Collection, filter: Object, payload: Object, user: Option<Actor>, variant: Variant, now: int)
      returns (result: HookResult)
    requires records.Valid()
    modifies records
    ensures records.Valid() && records.order == old(records.order)
    ensures var step := Pre(kind, old(records.docs), old(records.order), filter, payload, user, variant, now);
      records.docs == StoreAfter(old(records.docs), step, now) &&
      result == AsHookResult(step)
  {
    if CastFails(filter) {
      return Threw;
    }
    var found := records.Find(filter);
    if found == [] {
      return Responded(404, Message(NotFoundMessage(kind)));
    }
    var id := found[0];
    assert id in found;
    result := RunOn(kind, records, id, payload, user, variant, now);
  }

  /** The step as the engine sees it. */
  function AsHookResult(step: Step): HookResult {
    match step
    case Respond(status, body) => Responded(status, body)
    case Fail => Threw
    case Proceed(_, _, rest) => Continue(rest)
  }

  /** The gate, then the edits and the save, on the record found. */
  method RunOn(kind: Kind, records: Collection, id: Id, payload: Object, user: Option<Actor>, variant: Variant, now: int)
      returns (result: HookResult)
    requires records.Valid() && id in records.docs
    modifies records
    ensures records.Valid() && records.order == old(records.order)
    ensures var step := PreOn(kind, id, old(records.docs)[id], payload, user, variant, now);
      records.docs == StoreAfter(old(records.docs), step, now) &&
      result == AsHookResult(step)
  {
    var stored := records.docs[id];
    ghost var step := PreOn(kind, id, stored, payload, user, variant, now);
    var es := StatusOf(kind, stored);
    if es.None? || user.None? {
      assert step == Fail;
      return Threw;
    }
    if user.value.role == "customer" && (es.value == [] || es.value[|es.value| - 1].state != "missingDocuments") {
      assert step == Respond(403, Message(GateMessage));
      return Responded(403, Message(GateMessage));
    }
    assert step == AfterGate(kind, id, stored, es.value, payload, variant, now);
    result := EditAndSave(kind, records, id, es.value, payload, variant, now);
  }

  /** Past the gate: the in-memory edits, then `save()` of the changed record. */
  method EditAndSave(kind: Kind, records: Collection, id: Id, es: seq<Entry>, payload: Object, variant: Variant, now: int)
      returns (result: HookResult)
    requires records.Valid() && id in records.docs
    modifies records
    ensures records.Valid() && records.order == old(records.order)
    ensures var step := AfterGate(kind, id, old(records.docs)[id], es, payload, variant, now);
      records.docs == StoreAfter(old(records.docs), step, now) &&
      result == AsHookResult(step)
  {
    var step := EditStep(kind, id, records.docs[id], es, payload, variant, now);
    if !step.Proceed? {
      return Threw;
    }
    records.Save(id, step.changed, now);
    return Continue(step.rest);
  }

  /** The in-memory edits and the validation `save()` runs, as the step they lead to. */
  method EditStep(kind: Kind, id: Id, stored: Doc, es: seq<Entry>, payload: Object, variant: Variant, now: int)
      returns (step: Step)
    ensures step == AfterGate(kind, id, stored, es, payload, variant, now)
  {
    var doc, rest, ok := Edit(kind, stored, es, payload, variant, now);
    AfterGateSteps(kind, id, stored, es, payload, variant, now, doc, rest, ok);
    if !ok || !Persistable(kind, doc) {
      return Fail;
    }
    return Proceed(id, doc, rest);
  }

  /** The step past the gate, given what the in-memory edits produced. */
  lemma AfterGateSteps(kind: Kind, id: Id, stored: Doc, es: seq<Entry>, payload: Object, variant: Variant, now: int,
                       doc: Doc, rest: Object, ok: bool)
    requires ok <==> es != [] || !WritesLastEntry(payload)
    requires ok ==> doc == Changed(kind, stored, es, payload, variant, now) && rest == Leftover(payload, variant)
    ensures var step := AfterGate(kind, id, stored, es, payload, variant, now);
      (!ok || !Persistable(kind, doc) ==> step == Fail) &&
      (ok && Persistable(kind, doc) ==> step == Proceed(id, doc, rest))
  {
  }

  /**
   * The edits of the last entry, the `documents` loop, the `delete`s and `Object.assign`, in
   * memory; the corrected variant also drops `status` and the operator and path keys.
   */
  method Edit(kind: Kind, stored: Doc, es: seq<Entry>, payload: Object, variant: Variant, now: int)
      returns (doc: Doc, rest: Object, ok: bool)
    ensures ok <==> es != [] || !WritesLastEntry(payload)
    ensures ok ==> doc == Changed(kind, stored, es, payload, variant, now) && rest == Leftover(payload, variant)
  {
    var status;
    status, rest, ok := EditLastEntry(es, payload, now);
    if !ok {
      return stored, rest, ok;
    }
    doc, rest := MergeDocuments(kind, stored, status, payload, rest);
    rest := DropKeys(payload, rest, variant);
    doc := Assign(doc, rest);
  }

  /** The `documents` loop on the record with the edited status, and the `delete` of `documents`. */
  method MergeDocuments(kind: Kind, stored: Doc, status: seq<Entry>, payload: Object, rest0: Object)
      returns (doc: Doc, rest: Object)
    requires rest0 == payload - (Consumed(payload) - {"documents"})
    ensures doc == WithMergedDocuments(WithStatus(kind, stored, status), payload)
    ensures rest == payload - Consumed(payload)
  {
    doc := WithStatus(kind, stored, status);
    rest := rest0;
    DocumentsLeftInRest(payload);
    if TruthyAt(rest, "documents") {
      var merged := MergeAsCustomer(DocumentsOf(doc), OwnProps(rest["documents"]));
      doc := doc["documents" := Obj(merged)];
      rest := rest - {"documents"};
    }
  }

  /** The corrected variant's extra `delete`s: `status`, and every key the update would read as an operator or a path. */
  method DropKeys(payload: Object, rest0: Object, variant: Variant) returns (rest: Object)
    requires rest0 == payload - Consumed(payload)
    ensures rest == Leftover(payload, variant)
  {
    rest := rest0;
    if variant == Corrected {
      LeftoverFiltered(payload);
      rest := map k | k in rest && k != "status" && Evaluated(k) :: rest[k];
    }
  }

  /** Before the `documents` loop the body's `documents` is still in the leftover, and taking it out leaves `payload - Consumed(payload)`. */
  lemma DocumentsLeftInRest(payload: Object)
    ensures var r := payload - (Consumed(payload) - {"documents"});
      (TruthyAt(r, "documents") <==> TruthyAt(payload, "documents")) &&
      (TruthyAt(payload, "documents") ==> r["documents"] == payload["documents"] && r - {"documents"} == payload - Consumed(payload)) &&
      (!TruthyAt(payload, "documents") ==> r == payload - Consumed(payload))
  {
  }

  /** Dropping `status` and the keys the update cannot evaluate from `payload - Consumed(payload)` is the corrected leftover. */
  lemma LeftoverFiltered(payload: Object)
    ensures var r := payload - Consumed(payload);
      (map k | k in r && k != "status" && Evaluated(k) :: r[k]) == Leftover(payload, Corrected)
  {
  }
}
