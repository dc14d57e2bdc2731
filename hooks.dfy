/**
 * The `pre` hooks the controllers hand to the CRUD engine, as the closed set this
 * repository configures: list scoping to the caller (loan, credit, insurance, cibil),
 * the public-media filter (controller/media.js), the cibil and insurance-renewal create
 * hooks, and the customer update hook of loan and credit applications. No controller
 * configures a `post` hook or a `deleteById` hook.
 */
module Hooks {
  import opened Wrappers
  import opened Json
  import opened Store
  import opened Http
  import opened ApplicationStatus

  /** What a hook leaves behind: the object it was handed, changed; a response it sent; or an exception. */
  datatype HookResult = Continue(obj: Object) | Responded(status: int, body: Json) | Threw

  datatype ListHook =
    | NoListHook
    /** `if (!req.user || !req.user._id) throw …; filter[field] = req.user._id`. */
    | ScopeToActor(field: string)
    /** Non-admin, non-editor callers only see their own public images. */
    | PublicMediaScope

  datatype CreateHook = NoCreateHook | CibilCreate | RenewalCreate

  datatype UpdateHook = NoUpdateHook | CustomerApplicationUpdate(kind: Kind)

  /** `User.find({ role: "agent" })`: every agent account, blocked or not, in natural order. */
  function AgentPool(users: map<Id, Doc>, order: seq<Id>): (pool: seq<Id>)
    ensures forall id :: id in pool <==> id in order && id in users && Matches(id, users[id], map["role" := Str("agent")])
  {
    Select(users, order, map["role" := Str("agent")])
  }

  /** The list hooks: they only rewrite the filter, or throw. */
  function RunListHook(h: ListHook, filter: Object, req: Request): (r: HookResult)
    ensures h.NoListHook? ==> r == Continue(filter)
    ensures h.ScopeToActor? ==> (r.Threw? <==> Anonymous(req))
    ensures h.ScopeToActor? && r.Continue? ==> h.field in r.obj && r.obj[h.field] == Str(req.user.value.id)
    ensures h.PublicMediaScope? ==> (r.Threw? <==> req.user.None?)
    ensures !r.Responded?
  {
    match h
    case NoListHook => Continue(filter)
    case ScopeToActor(field) =>
      if Anonymous(req) then Threw else Continue(filter[field := Str(req.user.value.id)])
    case PublicMediaScope =>
      if req.user.None? then Threw
      else if req.user.value.role == "admin" || req.user.value.role == "editor" then Continue(filter)
      else Continue(filter["createdBy" := Str(req.user.value.id)]["public" := Bool(true)])
  }

  /**
   * The create hooks. The cibil hook answers 401 without a caller and 400 when the caller
   * already has a record, and otherwise binds the record to the caller; the renewal hook
   * throws without a caller or without agents, and otherwise binds the caller and the
   * agent at index `pick` of the pool.
   */
  function RunCreateHook(h: CreateHook, payload: Object, req: Request, docs: map<Id, Doc>, order: seq<Id>,
                         pool: seq<Id>, pick: nat): HookResult
    requires h.RenewalCreate? && pool != [] ==> pick < |pool|
  {
    match h
    case NoCreateHook => Continue(payload)
    case CibilCreate =>
      if Anonymous(req) then Responded(401, Message("User not authenticated"))
      else if Select(docs, order, map["user" := Str(req.user.value.id)]) != [] then Responded(400, Message("Cibil record already exists."))
      else Continue(payload["user" := Str(req.user.value.id)])
    case RenewalCreate =>
      if Anonymous(req) then Threw
      else if pool == [] then Threw
      else Continue(payload["user" := Str(req.user.value.id)]["agent" := Str(pool[pick])])
  }

  /** The cibil hook lets a caller create a record only when none of theirs exists yet. */
  lemma CibilCreateOnePerUser(payload: Object, req: Request, docs: map<Id, Doc>, order: seq<Id>, pool: seq<Id>, pick: nat)
    ensures var r := RunCreateHook(CibilCreate, payload, req, docs, order, pool, pick);
      (r.Continue? <==> !Anonymous(req) && forall id :: id in docs && id in order ==>
         !Matches(id, docs[id], map["user" := Str(req.user.value.id)])) &&
      (r.Continue? ==> "user" in r.obj && r.obj["user"] == Str(req.user.value.id)) &&
      (Anonymous(req) ==> r == Responded(401, Message("User not authenticated")))
  {
    if !Anonymous(req) {
      var ids := Select(docs, order, map["user" := Str(req.user.value.id)]);
      if ids != [] {
        assert ids[0] in ids;
      }
    }
  }

  /** The renewal hook binds the caller and a pooled agent, or throws. */
  lemma RenewalCreateBinds(payload: Object, req: Request, docs: map<Id, Doc>, order: seq<Id>, pool: seq<Id>, pick: nat)
    requires pool != [] ==> pick < |pool|
    ensures var r := RunCreateHook(RenewalCreate, payload, req, docs, order, pool, pick);
      (r.Threw? <==> Anonymous(req) || pool == []) &&
      !r.Responded? &&
      (r.Continue? ==>
         ("user" in r.obj && r.obj["user"] == Str(req.user.value.id) &&
          "agent" in r.obj && r.obj["agent"].Str? && r.obj["agent"].s in pool))
  {
  }

  /** Public media: admins and editors see the unchanged filter, everyone else only their own public images. */
  lemma PublicMediaFilter(filter: Object, req: Request)
    requires req.user.Some?
    ensures var r := RunListHook(PublicMediaScope, filter, req);
      var role := req.user.value.role;
      (role == "admin" || role == "editor" ==> r == Continue(filter)) &&
      (role != "admin" && role != "editor" ==>
         (r.Continue? &&
          r.obj["createdBy"] == Str(req.user.value.id) && r.obj["public"] == Bool(true) &&
          forall k :: k in filter && k != "createdBy" && k != "public" ==> k in r.obj && r.obj[k] == filter[k]))
  {
  }
}
