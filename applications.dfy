/**
 * The handlers that drive an application through its status workflow, for each of the
 * three kinds: the customer's create handler (`createLoan`, `createCredit`, and the
 * insurance `createLoan`), which assigns a random agent and seeds one `pending` entry,
 * and the agent's update handler (`updateLoanById`, `updateCreditById`,
 * `updateInsuranceById`), which edits the last status entry in place, claims the
 * application for the acting agent, saves, and records notifications.
 */
module Applications {
  import opened Wrappers
  import opened Json
  import opened Store
  import opened Http
  import opened ApplicationStatus
  import opened DocumentMerge
  import opened Hooks
  import opened BaseController

  // ---------------------------------------------------------------- create

  /** The texts of a kind's create handler. */
  datatype CreateTexts = CreateTexts(remark: string, success: string, key: string, failure: string)

  function CreateTextsOf(kind: Kind): CreateTexts {
    match kind
    case Loan => CreateTexts("Loan created", "Loan application submitted successfully", "loan",
                             "Error submitting loan application")
    case Credit => CreateTexts("Credit-card application created", "Credit application submitted successfully", "Credit",
                               "Error submitting Credit application")
    case Insurance => CreateTexts("Insurance created", "Insurance application submitted successfully", "Insurance",
                                  "Error submitting loan application")
  }

  /** The one entry a new application starts with; the remark's `createdAt` is the schema's default, the time of creation. */
  function SeedEntry(kind: Kind, now: int): Entry {
    Entry("pending", [Remark(Str(CreateTextsOf(kind).remark), now)], [])
  }

  /** `{ ...req.body, user, agent, status: [seed] }`: the caller and the agent override the body. */
  function ApplicationData(kind: Kind, body: Object, actor: Id, agent: Id, now: int): (d: Object)
    ensures "user" in d && d["user"] == Str(actor)
    ensures "agent" in d && d["agent"] == Str(agent)
    ensures "status" in d && d["status"] == Encode(kind, [SeedEntry(kind, now)])
    ensures forall k :: k in body && k != "user" && k != "agent" && k != "status" ==> k in d && d[k] == body[k]
  {
    body["user" := Str(actor)]["agent" := Str(agent)]["status" := Encode(kind, [SeedEntry(kind, now)])]
  }

  /**
   * The create handler on a given store and agent pool: 401 without a caller, 503 without
   * agents, otherwise one new application bound to the caller and to the agent at `pick`.
   * An `_id` in the body that cannot be used ends in the handler's 400.
   */
  function CreateEffect(kind: Kind, docs: map<Id, Doc>, order: seq<Id>, pool: seq<Id>, req: Request,
                        pick: nat, newId: Id, now: int): (e: Effect)
    requires pool != [] ==> pick < |pool|
    ensures e.res.headersSent
  {
    var texts := CreateTextsOf(kind);
    if Anonymous(req) then Effect(Send(Unsent, 401, Message("User not authenticated.")), docs, order)
    else if pool == [] then Effect(Send(Unsent, 503, Message("No agents available right now.")), docs, order)
    else
      var data := ApplicationData(kind, req.body, req.user.value.id, pool[pick], now);
      var id := NewId(data, newId);
      if id.None? || id.value in docs then Effect(Send(Unsent, 400, Message(texts.failure)), docs, order)
      else
        var d := Created(data, now);
        Effect(Send(Unsent, 201, Obj(map["message" := Str(texts.success), texts.key := WithId(id.value, d)])),
               docs[id.value := d], order + [id.value])
  }

  /**
   * Creating an application: without a caller 401, without agents 503, and in neither case
   * anything stored; otherwise the new record belongs to the caller, its agent is in the
   * pool, and its status is exactly one `pending` entry with the kind's single remark.
   */
  lemma {:induction false} CreateSeedsOnePending(kind: Kind, docs: map<Id, Doc>, order: seq<Id>, pool: seq<Id>,
                                                 req: Request, pick: nat, newId: Id, now: int)
    requires pool != [] ==> pick < |pool|
    requires newId !in docs && "_id" !in req.body
    ensures var e := CreateEffect(kind, docs, order, pool, req, pick, newId, now);
      (Anonymous(req) ==> e.res.status == 401 && e.docs == docs && e.order == order) &&
      (!Anonymous(req) && pool == [] ==> e.res.status == 503 && e.docs == docs && e.order == order) &&
      (!Anonymous(req) && pool != [] ==>
         e.res.status == 201 && e.order == order + [newId] && newId in e.docs &&
         e.docs[newId]["user"] == Str(req.user.value.id) &&
         e.docs[newId]["agent"].Str? && e.docs[newId]["agent"].s in pool &&
         StatusOf(kind, e.docs[newId]) == Some([SeedEntry(kind, now)]) &&
         StatusOf(kind, e.docs[newId]).value[0].state == "pending" &&
         |StatusOf(kind, e.docs[newId]).value[0].remarks| == 1)
  {
    if !Anonymous(req) && pool != [] {
      var data := ApplicationData(kind, req.body, req.user.value.id, pool[pick], now);
      assert NewId(data, newId) == Some(newId);
      var d := Created(data, now);
      SeedStored(kind, req.body, req.user.value.id, pool[pick], now);
      var e := CreateEffect(kind, docs, order, pool, req, pick, newId, now);
      assert e.docs == docs[newId := d] && e.order == order + [newId] && e.res.status == 201;
    }
  }

  /** The record `create()` stores for a new application belongs to the caller and the agent and decodes to the one seed entry. */
  lemma SeedStored(kind: Kind, body: Object, actor: Id, agent: Id, now: int)
    ensures var d := Created(ApplicationData(kind, body, actor, agent, now), now);
      "user" in d && d["user"] == Str(actor) && "agent" in d && d["agent"] == Str(agent) &&
      StatusOf(kind, d) == Some([SeedEntry(kind, now)])
  {
    SeedFields(kind, body, actor, agent, now);
    var d := Created(ApplicationData(kind, body, actor, agent, now), now);
    StatusOfEncoded(kind, d, [SeedEntry(kind, now)]);
  }

  /** `create()` keeps the fields the handler set. */
  lemma SeedFields(kind: Kind, body: Object, actor: Id, agent: Id, now: int)
    ensures var d := Created(ApplicationData(kind, body, actor, agent, now), now);
      "user" in d && d["user"] == Str(actor) && "agent" in d && d["agent"] == Str(agent) &&
      "status" in d && d["status"] == Encode(kind, [SeedEntry(kind, now)])
  {
  }

  /** A record whose `status` field is the encoding of well-formed entries hydrates to those entries. */
  lemma StatusOfEncoded(kind: Kind, d: Doc, es: seq<Entry>)
    requires "status" in d && d["status"] == Encode(kind, es) && WellFormed(kind, es)
    ensures StatusOf(kind, d) == Some(es)
  {
    DecodeEncode(kind, es);
  }

  /** The create handler, statement by statement; `pick` is `Math.floor(Math.random() * agents.length)`. */
  method CreateApplication(kind: Kind, records: Collection, users: Collection, req: Request, pick: nat, newId: Id, now: int)
      returns (res: Response)
    requires records.Valid()
    requires AgentPool(users.docs, users.order) != [] ==> pick < |AgentPool(users.docs, users.order)|
    modifies records
    ensures records.Valid()
    ensures var e := old(CreateEffect(kind, records.docs, records.order, AgentPool(users.docs, users.order), req, pick, newId, now));
      res == e.res && records.docs == e.docs && records.order == e.order
  {
    if req.user.None? || req.user.value.id == "" {
      return Send(Unsent, 401, Message("User not authenticated."));
    }
    var agents := AgentPool(users.docs, users.order);
    if |agents| == 0 {
      return Send(Unsent, 503, Message("No agents available right now."));
    }
    var randomAgent := agents[pick];
    var data := ApplicationData(kind, req.body, req.user.value.id, randomAgent, now);
    var id := NewId(data, newId);
    if id.None? || id.value in records.docs {
      return Send(Unsent, 400, Message(CreateTextsOf(kind).failure));
    }
    records.Insert(id.value, data, now);
    var texts := CreateTextsOf(kind);
    res := Send(Unsent, 201, Obj(map["message" := Str(texts.success), texts.key := WithId(id.value, records.docs[id.value])]));
  }

  // ---------------------------------------------------------------- agent update

  /** The body fields the agent handler takes out before `Object.assign`; insurance takes only `state` and `remark`. */
  function Handled(kind: Kind): set<string> {
    if kind == Insurance then {"state", "remark"} else {"state", "remark", "missingDocuments", "documents"}
  }

  /** The `state` the body asks for, when it is a non-empty string. */
  function GivenState(body: Object): Option<string> {
    if TruthyAt(body, "state") && body["state"].Str? then Some(body["state"].s) else None
  }

  /** A truthy `state` that is not a string: the schema's string enum rejects it on `save()`. */
  predicate BadState(body: Object) {
    TruthyAt(body, "state") && !body["state"].Str?
  }

  /** `lastStatus.missingDocuments = missingDocuments` happens only for an array. */
  predicate ReplacesMissing(kind: Kind, body: Object) {
    TracksMissingDocuments(kind) && TruthyAt(body, "missingDocuments") && body["missingDocuments"].Arr?
  }

  /** The last entry after the agent's in-place writes. */
  function AgentEditedEntry(kind: Kind, last: Entry, body: Object, now: int): (e: Entry)
    ensures e.state == if GivenState(body).Some? then GivenState(body).value else last.state
    ensures e.remarks == if TruthyAt(body, "remark") then last.remarks + [Remark(body["remark"], now)] else last.remarks
    ensures e.missingDocuments == if ReplacesMissing(kind, body) then body["missingDocuments"].items else last.missingDocuments
  {
    Entry(
      if GivenState(body).Some? then GivenState(body).value else last.state,
      if TruthyAt(body, "remark") then last.remarks + [Remark(body["remark"], now)] else last.remarks,
      if ReplacesMissing(kind, body) then body["missingDocuments"].items else last.missingDocuments)
  }

  /**
   * `missingDocuments || []` of a pushed entry as the schema casts it: an array is taken
   * as is, an object becomes a one-element array, and any other truthy value cannot be cast.
   */
  function PushedMissing(body: Object): Option<seq<Json>> {
    if !TruthyAt(body, "missingDocuments") then Some([])
    else if body["missingDocuments"].Arr? then Some(body["missingDocuments"].items)
    else if body["missingDocuments"].Obj? then Some([body["missingDocuments"]])
    else None
  }

  /** The entry pushed onto an empty status; `None` when its `missingDocuments` cannot be cast. */
  function PushedEntry(kind: Kind, body: Object, now: int): Option<Entry> {
    var state := if GivenState(body).Some? then GivenState(body).value else "pending";
    var remarks := if TruthyAt(body, "remark") then [Remark(body["remark"], now)] else [];
    var missing := if TracksMissingDocuments(kind) then PushedMissing(body) else Some([]);
    if missing.None? then None else Some(Entry(state, remarks, missing.value))
  }

  /** The status after the agent's edits: the last entry changed in place, or one entry pushed onto an empty status. */
  function AgentEditedStatus(kind: Kind, es: seq<Entry>, body: Object, now: int): Option<seq<Entry>> {
    if es != [] then Some(ReplaceLast(es, AgentEditedEntry(kind, es[|es| - 1], body, now)))
    else
      var pushed := PushedEntry(kind, body, now);
      if pushed.None? then None else Some([pushed.value])
  }

  /**
   * The status edit touches only the last entry: the length is unchanged, the earlier
   * entries are untouched, the remark is appended, the state set when given and the
   * missing documents replaced when an array. On an empty status exactly one entry is
   * pushed, with state `state || "pending"`.
   */
  lemma AgentEditsLastEntry(kind: Kind, es: seq<Entry>, body: Object, now: int)
    ensures es != [] ==>
      var r := AgentEditedStatus(kind, es, body, now);
      r.Some? && |r.value| == |es| &&
      (forall i :: 0 <= i < |es| - 1 ==> r.value[i] == es[i]) &&
      r.value[|es| - 1].state == (if GivenState(body).Some? then GivenState(body).value else es[|es| - 1].state) &&
      r.value[|es| - 1].remarks ==
        (if TruthyAt(body, "remark") then es[|es| - 1].remarks + [Remark(body["remark"], now)] else es[|es| - 1].remarks) &&
      r.value[|es| - 1].missingDocuments ==
        (if ReplacesMissing(kind, body) then body["missingDocuments"].items else es[|es| - 1].missingDocuments)
    ensures es == [] && (!TracksMissingDocuments(kind) || PushedMissing(body).Some?) ==>
      var r := AgentEditedStatus(kind, es, body, now);
      r.Some? && |r.value| == 1 &&
      r.value[0].state == (if GivenState(body).Some? then GivenState(body).value else "pending")
  {
  }

  /** The status history never grows past one entry: the agent edit leaves a status of length `max(|es|, 1)`. */
  lemma HistoryStaysShort(kind: Kind, es: seq<Entry>, body: Object, now: int)
    requires |es| <= 1
    ensures var r := AgentEditedStatus(kind, es, body, now); r.Some? ==> |r.value| == 1
  {
  }

  /** The record the agent handler saves, or `None` when the handler fails before saving. */
  function AgentChanged(kind: Kind, stored: Doc, body: Object, user: Option<Actor>, now: int): Option<Doc> {
    var withFields := Assign(stored, body - Handled(kind));
    var merged :=
      if TracksMissingDocuments(kind) && TruthyAt(body, "documents")
      then withFields["documents" := Obj(AgentMerged(DocumentsOf(withFields), SpreadEach(body["documents"])))]
      else withFields;
    var es := StatusOf(kind, merged);
    if es.None? || BadState(body) then None
    else
      var edited := AgentEditedStatus(kind, es.value, body, now);
      if edited.None? || !ValidStates(kind, edited.value) then None
      else
        var claimed := if user.Some? && user.value.id != "" then merged["agent" := Str(user.value.id)] else merged;
        Some(WithStatus(kind, claimed, edited.value))
  }

  /**
   * What the agent handler saves: every body field it does not handle itself is withFields
   * verbatim, and the acting agent claims the application.
   */
  lemma AgentClaims(kind: Kind, stored: Doc, body: Object, actor: Actor, now: int)
    requires actor.id != ""
    ensures var d := AgentChanged(kind, stored, body, Some(actor), now);
      d.Some? ==>
        "agent" in d.value && d.value["agent"] == Str(actor.id) &&
        forall k :: k in body && k !in Handled(kind) && k != "agent" && k != "status" && k != "documents" ==>
          k in d.value && d.value[k] == body[k]
  {
  }

  // ---------------------------------------------------------------- notifications

  /** One document of the notification collection. */
  datatype Notice = Notice(agentName: Option<Id>, user: Option<Json>, message: string, status: string, remark: Json)

  /** The append-only notification collection. */
  class Notifications {
    var log: seq<Notice>

    constructor ()
      ensures log == []
    {
      log := [];
    }

    /** `Notification.create(...)`. */
    method Create(n: Notice)
      modifies this
      ensures log == old(log) + [n]
    {
      log := log + [n];
    }
  }

  /** The arrow of the state-change message; the credit handler's file holds it as mis-decoded UTF-8. */
  function Arrow(kind: Kind): string {
    if kind == Credit then "\U{00E2}\U{2020}\U{2019}" else "\U{2192}"
  }

  function KindTitle(kind: Kind): string {
    match kind
    case Loan => "Loan"
    case Credit => "Credit"
    case Insurance => "Insurance"
  }

  function StateMessage(kind: Kind, previous: string, state: string): string {
    KindTitle(kind) + " status changed from " + previous + " " + Arrow(kind) + " " + state
  }

  /**
   * The state before the edit as the handler compares it: loan and credit read
   * `lastStatus?.state || "pending"`, insurance `lastStatus?.state`, absent without an entry.
   */
  function OldState(kind: Kind, es: seq<Entry>): Option<string> {
    if kind == Insurance then (if es == [] then None else Some(es[|es| - 1].state))
    else Some(if es != [] && es[|es| - 1].state != "" then es[|es| - 1].state else "pending")
  }

  /** `state && oldState !== state`. */
  predicate StateChanged(kind: Kind, es: seq<Entry>, body: Object) {
    GivenState(body).Some? && OldState(kind, es) != Some(GivenState(body).value)
  }

  /**
   * `d.name` as `Array.prototype.join` renders it: a missing or null name as "", anything
   * else as its text; `None` where reading `name` throws (a `null` item).
   */
  function NameText(d: Json): (r: Option<string>)
    ensures r.None? <==> d.Null?
    ensures d.Obj? && "name" in d.fields && d.fields["name"].Str? ==> r == Some(d.fields["name"].s)
  {
    match d
    case Null => None
    case Obj(f) => if "name" !in f || f["name"].Null? then Some("") else Some(Text(f["name"]))
    case _ => Some("")
  }

  /** `items.map(d => d.name).join(", ")`, or `None` when an item throws. */
  function NameList(items: seq<Json>): Option<string>
    decreases |items|
  {
    if items == [] then Some("")
    else
      var init := NameList(items[..|items| - 1]);
      var last := NameText(items[|items| - 1]);
      if init.None? || last.None? then None
      else if |items| == 1 then last
      else Some(init.value + ", " + last.value)
  }

  /** The second notification: none, the list of requested documents, or an exception. */
  datatype MissingNotice = NoMissingNotice | MissingList(text: string) | MissingCrash

  /**
   * `missingDocuments && missingDocuments.length > 0`, then `.map(...)`: a non-empty array
   * lists its names; a non-empty string, or an object whose `length` is positive, has no
   * `map` and throws.
   */
  function MissingNoticeOf(kind: Kind, body: Object): MissingNotice {
    if !TracksMissingDocuments(kind) || !TruthyAt(body, "missingDocuments") then NoMissingNotice
    else match body["missingDocuments"]
      case Arr(items) =>
        if items == [] then NoMissingNotice
        else
          var names := NameList(items);
          if names.None? then MissingCrash else MissingList(names.value)
      case Str(_) => MissingCrash
      case Obj(f) =>
        if "length" in f && ((f["length"].Num? && f["length"].n > 0) || f["length"] == Bool(true)) then MissingCrash
        else NoMissingNotice
      case _ => NoMissingNotice
  }

  /** The result of the notification step: what it created, and whether it threw. */
  datatype Notified = Notified(notices: seq<Notice>, crashed: bool)

  /**
   * The notification's `agentName`: loan and credit write `req.user?._id || null`;
   * insurance writes `req.user._id`, which throws without a caller.
   */
  function AgentName(kind: Kind, user: Option<Actor>): Option<Id> {
    if user.None? then None
    else if kind == Insurance || user.value.id != "" then Some(user.value.id)
    else None
  }

  /** The notifications the agent handler creates after the save, in order. */
  function AgentNotices(kind: Kind, es: seq<Entry>, body: Object, user: Option<Actor>, saved: Doc): (n: Notified)
    ensures |n.notices| <= 2
  {
    var remark := OrElse(body, "remark", Str(""));
    var agentName := AgentName(kind, user);
    var owner := Lookup(saved, "user");
    if StateChanged(kind, es, body) && kind == Insurance && user.None? then Notified([], true)
    else
      var first :=
        if StateChanged(kind, es, body) then
          var before := OldState(kind, es);
          [Notice(agentName, owner,
                  StateMessage(kind, if before.Some? && before.value != "" then before.value else "pending", GivenState(body).value),
                  GivenState(body).value, remark)]
        else [];
      match MissingNoticeOf(kind, body)
      case NoMissingNotice => Notified(first, false)
      case MissingCrash => Notified(first, true)
      case MissingList(text) =>
        Notified(first + [Notice(agentName, owner, "Missing documents requested: " + text, "missingDocuments", remark)], false)
  }

  /**
   * The notifications of one agent update: one with the new state exactly when a state is
   * given that differs from the old one, and (loan and credit only) one with
   * `missingDocuments` exactly when a non-empty array of documents is requested.
   */
  lemma {:induction false} NoticesIff(kind: Kind, es: seq<Entry>, body: Object, actor: Actor, saved: Doc)
    requires actor.id != ""
    requires MissingNoticeOf(kind, body) != MissingCrash
    ensures var n := AgentNotices(kind, es, body, Some(actor), saved);
      var wantsState := StateChanged(kind, es, body);
      var wantsMissing := MissingNoticeOf(kind, body).MissingList?;
      !n.crashed &&
      |n.notices| == (if wantsState then 1 else 0) + (if wantsMissing then 1 else 0) &&
      (wantsState ==> n.notices[0].status == GivenState(body).value) &&
      (wantsMissing ==> n.notices[|n.notices| - 1].status == "missingDocuments") &&
      (wantsMissing ==> TracksMissingDocuments(kind) && body["missingDocuments"].Arr? && body["missingDocuments"].items != [])
  {
  }

  /**
   * Insurance and loan differ on an empty status: a loan compares against "pending" and
   * stays silent when asked for "pending", while insurance compares against nothing and
   * announces a change "from pending".
   */
  lemma FirstPendingNotice(body: Object, actor: Actor, saved: Doc)
    requires actor.id != "" && GivenState(body) == Some("pending") && "missingDocuments" !in body
    ensures AgentNotices(Loan, [], body, Some(actor), saved).notices == []
    ensures var n := AgentNotices(Insurance, [], body, Some(actor), saved).notices;
      |n| == 1 && n[0].message == StateMessage(Insurance, "pending", "pending")
  {
    assert !StateChanged(Loan, [], body);
    assert MissingNoticeOf(Loan, body) == NoMissingNotice;
    InsuranceFirstNotice(body, actor, saved);
  }

  lemma InsuranceFirstNotice(body: Object, actor: Actor, saved: Doc)
    requires actor.id != "" && GivenState(body) == Some("pending")
    ensures var n := AgentNotices(Insurance, [], body, Some(actor), saved).notices;
      |n| == 1 && n[0].message == StateMessage(Insurance, "pending", "pending")
  {
    assert StateChanged(Insurance, [], body);
    assert MissingNoticeOf(Insurance, body) == NoMissingNotice;
  }

  /** The agent handler's answer, the store after it, and the notifications it created. */
  datatype AgentEffect = AgentEffect(res: Response, docs: map<Id, Doc>, notices: seq<Notice>)

  function IdRequired(kind: Kind): string {
    KindTitle(kind) + " ID is required"
  }

  function NotFound(kind: Kind): string {
    KindTitle(kind) + " not found"
  }

  /** The agent update handler on a given store. */
  function AgentUpdateEffect(kind: Kind, docs: map<Id, Doc>, req: Request, now: int): (e: AgentEffect)
    ensures e.res.headersSent
    ensures e.docs.Keys == docs.Keys
  {
    if !Given(req.params, "id") then AgentEffect(Send(Unsent, 400, Message(IdRequired(kind))), docs, [])
    else
      var id := req.params["id"];
      if !IsObjectId(id) then AgentEffect(Failed(), docs, [])
      else if id !in docs then AgentEffect(Send(Unsent, 404, Message(NotFound(kind))), docs, [])
      else
        var changed := AgentChanged(kind, docs[id], req.body, req.user, now);
        if changed.None? then AgentEffect(Failed(), docs, [])
        else
          var saved := Saved(docs[id], changed.value, now);
          var es := StatusBeforeEdit(kind, docs[id], req.body);
          var n := AgentNotices(kind, es, req.body, req.user, saved);
          var res := if n.crashed then Failed()
            else Send(Unsent, 200, MessageData(KindTitle(kind) + " updated successfully", WithId(id, saved)));
          AgentEffect(res, docs[id := saved], n.notices)
  }

  /** The status the handler read `oldState` from: the record's, after `Object.assign` of the other fields. */
  function StatusBeforeEdit(kind: Kind, stored: Doc, body: Object): seq<Entry> {
    var withFields := Assign(stored, body - Handled(kind));
    var es := StatusOf(kind, withFields);
    if es.Some? then es.value else []
  }

  /** A missing or unknown id is answered without touching the store or the notifications. */
  lemma AgentRejects(kind: Kind, docs: map<Id, Doc>, req: Request, now: int)
    requires !Given(req.params, "id") || (IsObjectId(req.params["id"]) && req.params["id"] !in docs)
    ensures var e := AgentUpdateEffect(kind, docs, req, now);
      e.docs == docs && e.notices == [] &&
      e.res.status == (if !Given(req.params, "id") then 400 else 404)
  {
  }

  /** The agent update handler, statement by statement. */
  method UpdateByAgent(kind: Kind, records: Collection, notifications: Notifications, req: Request, now: int)
      returns (res: Response)
    requires records.Valid()
    modifies records, notifications
    ensures records.Valid() && records.order == old(records.order)
    ensures var e := old(AgentUpdateEffect(kind, records.docs, req, now));
      res == e.res && records.docs == e.docs && notifications.log == old(notifications.log) + e.notices
  {
    if !("id" in req.params && req.params["id"] != "") {
      return Send(Unsent, 400, Message(IdRequired(kind)));
    }
    var id := req.params["id"];
    if !IsObjectId(id) {
      return Failed();
    }
    if id !in records.docs {
      return Send(Unsent, 404, Message(NotFound(kind)));
    }
    var body := req.body;
    var stored := records.docs[id];
    var doc := Edit(kind, stored, body, req.user, now);
    if doc.None? {
      return Failed();
    }
    records.Save(id, doc.value, now);
    var saved := records.docs[id];
    res := Notify(kind, notifications, StatusBeforeEdit(kind, stored, body), body, req.user, saved);
    if !res.headersSent {
      res := Send(Unsent, 200, MessageData(KindTitle(kind) + " updated successfully", WithId(id, saved)));
    }
  }

  /** The in-memory edits before the save: `Object.assign`, the document loop, the status, the agent. */
  method Edit(kind: Kind, stored: Doc, body: Object, user: Option<Actor>, now: int) returns (doc: Option<Doc>)
    ensures doc == AgentChanged(kind, stored, body, user, now)
  {
    var loan := Assign(stored, body - Handled(kind));
    if TracksMissingDocuments(kind) && TruthyAt(body, "documents") {
      var merged := MergeAsAgent(DocumentsOf(loan), SpreadEach(body["documents"]));
      loan := loan["documents" := Obj(merged)];
    }
    var status := StatusOf(kind, loan);
    if status.None? || BadState(body) {
      return None;
    }
    var es := EditStatus(kind, status.value, body, now);
    if es.None? || !ValidStates(kind, es.value) {
      return None;
    }
    if user.Some? && user.value.id != "" {
      loan := loan["agent" := Str(user.value.id)];
    }
    doc := Some(WithStatus(kind, loan, es.value));
  }

  /** The edit of the status array: the last entry's fields one by one, or a push onto an empty array. */
  method EditStatus(kind: Kind, es: seq<Entry>, body: Object, now: int) returns (r: Option<seq<Entry>>)
    requires !BadState(body)
    ensures r == AgentEditedStatus(kind, es, body, now)
  {
    if es == [] {
      var pushed := PushedEntry(kind, body, now);
      if pushed.None? {
        return None;
      }
      return Some([pushed.value]);
    }
    var lastStatus := es[|es| - 1];
    if TruthyAt(body, "remark") {
      lastStatus := lastStatus.(remarks := lastStatus.remarks + [Remark(body["remark"], now)]);
    }
    if TruthyAt(body, "state") {
      lastStatus := lastStatus.(state := body["state"].s);
    }
    if ReplacesMissing(kind, body) {
      lastStatus := lastStatus.(missingDocuments := body["missingDocuments"].items);
    }
    assert lastStatus == AgentEditedEntry(kind, es[|es| - 1], body, now);
    r := Some(ReplaceLast(es, lastStatus));
  }

  /**
   * The notification step after the save. It answers 500 when a notification throws and
   * otherwise leaves the response unsent for the handler's 200.
   */
  method Notify(kind: Kind, notifications: Notifications, es: seq<Entry>, body: Object, user: Option<Actor>, saved: Doc)
      returns (res: Response)
    modifies notifications
    ensures var n := AgentNotices(kind, es, body, user, saved);
      notifications.log == old(notifications.log) + n.notices &&
      (n.crashed ==> res == Failed()) && (!n.crashed ==> res == Unsent)
  {
    var remark := OrElse(body, "remark", Str(""));
    var agentName := AgentName(kind, user);
    var owner := Lookup(saved, "user");
    res := Unsent;
    if StateChanged(kind, es, body) {
      if kind == Insurance && user.None? {
        return Failed();
      }
      var before := OldState(kind, es);
      var state := GivenState(body).value;
      notifications.Create(Notice(agentName, owner,
        StateMessage(kind, if before.Some? && before.value != "" then before.value else "pending", state), state, remark));
    }
    match MissingNoticeOf(kind, body)
    case NoMissingNotice =>
    case MissingCrash =>
      res := Failed();
    case MissingList(text) =>
      notifications.Create(Notice(agentName, owner, "Missing documents requested: " + text, "missingDocuments", remark));
  }
}
