/**
 * The generic CRUD engine every controller is built on (core/BaseController.js): a
 * configuration with defaults, page arithmetic, the list filter built from owner scoping,
 * declared route and query fields and a text search, the `pre` hooks, and the six
 * handlers `get`, `getById`, `create`, `updateById`, `deleteById` and `getAll`.
 *
 * Each handler is a method of `Engine` over the model's collection, proved equal to a
 * function of the store before the request (`ListReply`, `ByIdReply`, `CreateEffect`,
 * `UpdateEffect`, `DeleteEffect`, `AllReply`); the lemmas state what those functions promise.
 */
module BaseController {
  import opened Wrappers
  import opened Json
  import opened JsNumber
  import opened Store
  import opened Http
  import opened ApplicationStatus
  import opened Hooks
  import opened CustomerUpdate

  /** `{ limit, maxLimit }` of `config.get.pagination`. */
  datatype Pagination = Pagination(limit: int, maxLimit: int)

  /** The engine's own default. */
  const DefaultPagination := Pagination(10, 100)

  /** `config.pagination` of config.js, which every controller here passes. */
  const ConfiguredPagination := Pagination(10, 500)

  /**
   * What a controller passes to `new BaseController(Model, config)`; an empty string or
   * `None` is an option left out. Every controller here that sorts asks for
   * `{ createdAt: -1 }`, the default, so the sort is not an option of the model.
   */
  datatype Options = Options(
    name: string, access: string, accessKey: string, pagination: Option<Pagination>,
    params: seq<string>, query: seq<string>,
    listHook: ListHook, createHook: CreateHook, updateHook: UpdateHook)

  datatype Config = Config(
    name: string, access: string, accessKey: string, pagination: Pagination,
    params: seq<string>, query: seq<string>,
    listHook: ListHook, createHook: CreateHook, updateHook: UpdateHook)

  /**
   * The constructor: `config.name || Model.modelName`, `access || 'admin'`, `accessKey || 'userId'`.
   * The access level and the owner key are never empty, and an engine scopes by the caller
   * only when it asks for `'user'` explicitly.
   */
  function Configure(opts: Options, modelName: string): (c: Config)
    ensures c.name == if opts.name != "" then opts.name else modelName
    ensures c.access == if opts.access != "" then opts.access else "admin"
    ensures c.accessKey == if opts.accessKey != "" then opts.accessKey else "userId"
    ensures c.pagination == opts.pagination.GetOr(DefaultPagination)
    ensures c.access != "" && c.accessKey != ""
    ensures Scoped(c) <==> opts.access == "user"
    ensures c.params == opts.params && c.query == opts.query
  {
    Config(
      if opts.name != "" then opts.name else modelName,
      if opts.access != "" then opts.access else "admin",
      if opts.accessKey != "" then opts.accessKey else "userId",
      opts.pagination.GetOr(DefaultPagination),
      opts.params, opts.query, opts.listHook, opts.createHook, opts.updateHook)
  }

  /** Only `access: 'user'` scopes by the caller; every other value (including 'customer' and 'agent') does nothing. */
  predicate Scoped(c: Config) {
    c.access == "user"
  }

  /** `{ limit, skip }` of a list request. */
  datatype Page = Page(limit: int, skip: int)

  /** `page` as `_parsePagination` reads it: `parseInt(req.query.page, 10) || 1`. */
  function PageNumber(query: map<string, string>): int {
    OrDefault(ParseQuery(query, "page", Decimal), 1)
  }

  /**
   * `_parsePagination`: the requested limit (or the default when it is missing, not a
   * number, or 0) capped at `maxLimit`, and `skip = (page - 1) * limit`. Neither is clamped
   * from below.
   */
  function ParsePagination(p: Pagination, query: map<string, string>): (r: Page)
    ensures var requested := OrDefault(ParseQuery(query, "limit", Decimal), p.limit);
      r.limit == if requested < p.maxLimit then requested else p.maxLimit
    ensures r.limit <= p.maxLimit
    ensures p.limit != 0 && p.maxLimit != 0 ==> r.limit != 0
    ensures r.skip == (PageNumber(query) - 1) * r.limit
  {
    var requested := OrDefault(ParseQuery(query, "limit", Decimal), p.limit);
    var limit := if requested < p.maxLimit then requested else p.maxLimit;
    Page(limit, (PageNumber(query) - 1) * limit)
  }

  /** A missing, non-numeric or zero `limit` gives the configured default, capped. */
  lemma DefaultLimit(p: Pagination, query: map<string, string>)
    requires var l := ParseQuery(query, "limit", Decimal); l.None? || l.value == 0
    ensures ParsePagination(p, query).limit == if p.limit < p.maxLimit then p.limit else p.maxLimit
  {
  }

  /** A missing, non-numeric or zero `page` is the first page: nothing is skipped. */
  lemma FirstPage(p: Pagination, query: map<string, string>)
    requires var pg := ParseQuery(query, "page", Decimal); pg.None? || pg.value == 0
    ensures ParsePagination(p, query).skip == 0
  {
  }

  /** A page number below 1 that parses is not clamped: the skip is negative and the server rejects the query. */
  lemma {:induction false} NegativePage(p: Pagination)
    requires 0 < p.limit <= p.maxLimit
    ensures ParsePagination(p, map["page" := "-1"]).skip < 0
  {
    ParseIntString(-1);
    assert IntString(-1) == "-1" by {
      assert DecimalString(1) == [Digit(1)];
      assert Digit(1) == '1';
    }
  }

  /**
   * The `forEach` over declared route or query fields: each declared key with a truthy
   * request value is copied into the filter, later keys overriding earlier ones.
   */
  function DeclaredFilter(base: Object, values: map<string, string>, keys: seq<string>): (f: Object)
    decreases |keys|
  {
    if keys == [] then base
    else
      var f := DeclaredFilter(base, values, keys[..|keys| - 1]);
      var k := keys[|keys| - 1];
      if Given(values, k) then f[k := Str(values[k])] else f
  }

  /**
   * Exactly the declared keys with a truthy value enter the filter, with the request's
   * value, overriding what was there; every other key keeps its value from `base`.
   */
  lemma {:induction false} DeclaredFilterFields(base: Object, values: map<string, string>, keys: seq<string>)
    ensures var f := DeclaredFilter(base, values, keys);
      (forall k :: k in f <==> k in base || (k in keys && Given(values, k))) &&
      (forall k :: k in keys && Given(values, k) ==> f[k] == Str(values[k])) &&
      (forall k :: k in base && !(k in keys && Given(values, k)) ==> f[k] == base[k])
    decreases |keys|
  {
    if keys != [] {
      var init := keys[..|keys| - 1];
      DeclaredFilterFields(base, values, init);
      assert keys == init + [keys[|keys| - 1]];
    }
  }

  /** The end of a handler: a response sent, or a value to go on with. */
  datatype Outcome<T> = Stop(res: Response) | Go(value: T)

  const Unauthorized := Send(Unsent, 401, Message("Unauthorized: user id required"))

  /** The owner scoping of `get`, `updateById` and `deleteById`, on a starting filter. */
  function ScopeFilter(c: Config, req: Request, base: Object): (r: Outcome<Object>)
    ensures r.Stop? <==> Scoped(c) && Anonymous(req)
    ensures r.Stop? ==> r.res == Unauthorized
    ensures r.Go? && Scoped(c) ==> c.accessKey in r.value && r.value[c.accessKey] == Str(req.user.value.id)
    ensures r.Go? && !Scoped(c) ==> r.value == base
    ensures r.Go? ==> forall k :: k in base && k != c.accessKey ==> k in r.value && r.value[k] == base[k]
  {
    if !Scoped(c) then Go(base)
    else if Anonymous(req) then Stop(Unauthorized)
    else Go(base[c.accessKey := Str(req.user.value.id)])
  }

  /** The list filter before the hook: scoping, then declared params, then declared query fields, then the search. */
  function BaseListFilter(c: Config, req: Request): Outcome<Object> {
    match ScopeFilter(c, req, map[])
    case Stop(res) => Stop(res)
    case Go(scoped) =>
      var f := DeclaredFilter(DeclaredFilter(scoped, req.params, c.params), req.query, c.query);
      Go(if Given(req.query, "search") then f["$text" := Obj(map["$search" := Str(req.query["search"])])] else f)
  }

  /** The list filter after the hook; a hook that throws ends in 500. */
  function ListFilter(c: Config, req: Request): (r: Outcome<Object>)
    ensures r.Stop? ==> r.res.headersSent
  {
    match BaseListFilter(c, req)
    case Stop(res) => Stop(res)
    case Go(f) =>
      match RunListHook(c.listHook, f, req)
      case Continue(g) => Go(g)
      case Responded(status, body) => Stop(Send(Unsent, status, body))
      case Threw => Stop(Failed())
  }

  /** The documents of `ids`, as the response lists them. */
  function Records(docs: map<Id, Doc>, ids: seq<Id>): (items: seq<Json>)
    ensures |items| == |ids|
    ensures forall i :: 0 <= i < |ids| && ids[i] in docs ==> items[i] == WithId(ids[i], docs[ids[i]])
  {
    seq(|ids|, i requires 0 <= i < |ids| => if ids[i] in docs then WithId(ids[i], docs[ids[i]]) else Null)
  }

  /** The matches in the order the list returns them: text-search order is not modelled, so natural order; else newest first. */
  function Ranked(docs: map<Id, Doc>, order: seq<Id>, filter: Object): seq<Id> {
    var ids := Select(docs, order, filter);
    if TruthyAt(filter, "$text") then ids else NewestFirst(docs, ids)
  }

  /** `get`: the page of matching documents and the number of all matches. */
  function ListReply(c: Config, docs: map<Id, Doc>, order: seq<Id>, req: Request): (res: Response)
    ensures res.headersSent
  {
    match ListFilter(c, req)
    case Stop(res) => res
    case Go(filter) =>
      var page := ParsePagination(c.pagination, req.query);
      if CastFails(filter) then Failed()
      else
        match Window(Ranked(docs, order, filter), page.skip, page.limit)
        case None => Failed()
        case Some(window) =>
          Send(Unsent, 200, Obj(map[
            "message" := Str(c.name + " fetched successfully"),
            "data" := Arr(Records(docs, window)),
            "count" := Num(|Select(docs, order, filter)|)]))
  }

  /**
   * The list filter of a scoped engine holds the caller under `accessKey`, unless a
   * declared field of the same name overrides it; without a caller the list is 401
   * whatever the store holds.
   */
  lemma {:induction false} ListScoping(c: Config, docs: map<Id, Doc>, order: seq<Id>, req: Request)
    requires Scoped(c) && c.listHook.NoListHook?
    ensures Anonymous(req) ==> ListReply(c, docs, order, req) == Unauthorized
    ensures (!Anonymous(req) && !(c.accessKey in c.params && Given(req.params, c.accessKey)) &&
             !(c.accessKey in c.query && Given(req.query, c.accessKey)) && c.accessKey != "$text") ==>
      var f := ListFilter(c, req);
      f.Go? && c.accessKey in f.value && f.value[c.accessKey] == Str(req.user.value.id)
  {
    if !Anonymous(req) {
      var scoped := map[c.accessKey := Str(req.user.value.id)];
      DeclaredFilterFields(scoped, req.params, c.params);
      var f1 := DeclaredFilter(scoped, req.params, c.params);
      DeclaredFilterFields(f1, req.query, c.query);
    }
  }

  /**
   * Undeclared request fields never reach the list filter: before the hook, every key of
   * the filter is the scoping key, a declared field given in the request, or `$text`.
   */
  lemma {:induction false} OnlyDeclaredFields(c: Config, req: Request, k: string)
    requires BaseListFilter(c, req).Go? && k in BaseListFilter(c, req).value
    ensures (Scoped(c) && k == c.accessKey) ||
      (k in c.params && Given(req.params, k)) || (k in c.query && Given(req.query, k)) ||
      (k == "$text" && Given(req.query, "search"))
  {
    var scoped := ScopeFilter(c, req, map[]).value;
    DeclaredFilterFields(scoped, req.params, c.params);
    var f1 := DeclaredFilter(scoped, req.params, c.params);
    DeclaredFilterFields(f1, req.query, c.query);
  }

  /**
   * A list request that a hook ends, or that scoping rejects, answers the same whatever
   * the store holds: nothing is queried.
   */
  lemma StopsBeforeQuery(c: Config, docs: map<Id, Doc>, order: seq<Id>, docs': map<Id, Doc>, order': seq<Id>, req: Request)
    requires ListFilter(c, req).Stop?
    ensures ListReply(c, docs, order, req) == ListReply(c, docs', order', req) == ListFilter(c, req).res
  {
  }

  /** Every id the list ranks is a match; without a search the ranking is newest first. */
  lemma {:induction false} RankedMatches(docs: map<Id, Doc>, order: seq<Id>, filter: Object)
    ensures var ranked := Ranked(docs, order, filter);
      (forall id :: id in ranked ==> id in docs && Matches(id, docs[id], filter)) &&
      (!TruthyAt(filter, "$text") ==>
        forall i, j :: 0 <= i < j < |ranked| ==> CreatedAt(docs[ranked[i]]) >= CreatedAt(docs[ranked[j]]))
  {
    var ids := Select(docs, order, filter);
    var ranked := Ranked(docs, order, filter);
    forall id | id in ranked
      ensures id in ids
    {
      if !TruthyAt(filter, "$text") {
        assert multiset(ranked) == multiset(ids);
        assert id in multiset(ranked);
      }
    }
    if !TruthyAt(filter, "$text") {
      forall i, j | 0 <= i < j < |ranked|
        ensures CreatedAt(docs[ranked[i]]) >= CreatedAt(docs[ranked[j]])
      {
        assert ranked[i] in ranked && ranked[j] in ranked;
      }
    }
  }

  /** A window keeps the items of the sequence, in their order. */
  lemma WindowKeepsOrder(docs: map<Id, Doc>, ranked: seq<Id>, skip: int, limit: int)
    requires Window(ranked, skip, limit).Some?
    requires forall id :: id in ranked ==> id in docs
    requires forall i, j :: 0 <= i < j < |ranked| ==> CreatedAt(docs[ranked[i]]) >= CreatedAt(docs[ranked[j]])
    ensures var w := Window(ranked, skip, limit).value;
      forall i, j :: 0 <= i < j < |w| ==> CreatedAt(docs[w[i]]) >= CreatedAt(docs[w[j]])
  {
    var w := Window(ranked, skip, limit).value;
    forall i, j | 0 <= i < j < |w|
      ensures CreatedAt(docs[w[i]]) >= CreatedAt(docs[w[j]])
    {
      assert w[i] == ranked[skip + i] && w[j] == ranked[skip + j];
    }
  }

  /**
   * A successful list answers with documents that all match, and `count` is the number of
   * all matches whatever the page; without a search they are newest first.
   */
  lemma {:induction false} ListPage(c: Config, docs: map<Id, Doc>, order: seq<Id>, req: Request)
    requires ListFilter(c, req).Go?
    requires ListReply(c, docs, order, req).status == 200
    ensures var filter := ListFilter(c, req).value;
      var page := ParsePagination(c.pagination, req.query);
      var window := Window(Ranked(docs, order, filter), page.skip, page.limit);
      var body := ListReply(c, docs, order, req).body;
      window.Some? &&
      (forall id :: id in window.value ==> id in docs && Matches(id, docs[id], filter)) &&
      body == Obj(map["message" := Str(c.name + " fetched successfully"),
                      "data" := Arr(Records(docs, window.value)),
                      "count" := Num(|Select(docs, order, filter)|)]) &&
      (!TruthyAt(filter, "$text") ==>
        forall i, j :: 0 <= i < j < |window.value| ==> CreatedAt(docs[window.value[i]]) >= CreatedAt(docs[window.value[j]]))
  {
    var filter := ListFilter(c, req).value;
    var page := ParsePagination(c.pagination, req.query);
    var ranked := Ranked(docs, order, filter);
    RankedMatches(docs, order, filter);
    var window := Window(ranked, page.skip, page.limit).value;
    forall id | id in window
      ensures id in ranked
    {
      var i :| 0 <= i < |window| && window[i] == id;
      assert ranked[page.skip + i] == id;
    }
    if !TruthyAt(filter, "$text") {
      WindowKeepsOrder(docs, ranked, page.skip, page.limit);
    }
  }

  /**
   * The page a successful list answers holds `|limit|` documents, or all the matches that
   * remain after `skip` when fewer do (all of them for limit 0).
   */
  lemma {:induction false} ListPageSize(c: Config, docs: map<Id, Doc>, order: seq<Id>, req: Request)
    requires ListFilter(c, req).Go?
    requires ListReply(c, docs, order, req).status == 200
    ensures var filter := ListFilter(c, req).value;
      var page := ParsePagination(c.pagination, req.query);
      var window := Window(Ranked(docs, order, filter), page.skip, page.limit);
      var total := |Select(docs, order, filter)|;
      var rest := if page.skip <= total then total - page.skip else 0;
      var size := if page.limit < 0 then -page.limit else page.limit;
      window.Some? && |window.value| == if page.limit == 0 || rest <= size then rest else size
  {
    var filter := ListFilter(c, req).value;
    var ranked := Ranked(docs, order, filter);
    RankedMatches(docs, order, filter);
    assert |ranked| == |Select(docs, order, filter)| by {
      if !TruthyAt(filter, "$text") {
        assert |multiset(ranked)| == |multiset(Select(docs, order, filter))|;
      }
    }
  }

  /** `getById`: no owner scoping, whoever asks. */
  function ByIdReply(c: Config, docs: map<Id, Doc>, req: Request): (res: Response)
    ensures res.headersSent
    ensures !Given(req.params, "id") ==> res.status == 400
    ensures Given(req.params, "id") && IsObjectId(req.params["id"]) ==>
      (res.status == 404 <==> req.params["id"] !in docs)
    ensures res.status == 200 <==> Given(req.params, "id") && IsObjectId(req.params["id"]) && req.params["id"] in docs
    ensures res.status == 200 ==>
      res.body == MessageData(c.name + " fetched successfully", WithId(req.params["id"], docs[req.params["id"]]))
  {
    if !Given(req.params, "id") then Send(Unsent, 400, Message(c.name + " id is required"))
    else
      var id := req.params["id"];
      if !IsObjectId(id) then Failed()
      else if id !in docs then Send(Unsent, 404, Message(c.name + " not found"))
      else Send(Unsent, 200, MessageData(c.name + " fetched successfully", WithId(id, docs[id])))
  }

  /** `getById` answers every caller alike, even on a scoped engine. */
  lemma ByIdIgnoresCaller(c: Config, docs: map<Id, Doc>, req: Request, user: Option<Actor>)
    ensures ByIdReply(c, docs, req) == ByIdReply(c, docs, req.(user := user))
  {
  }

  /** A response, and the whole store after a handler that writes. */
  datatype Effect = Effect(res: Response, docs: map<Id, Doc>, order: seq<Id>)

  /** The payload of `create` after scoping: the body, with the caller under `accessKey` on a scoped engine. */
  function CreatePayload(c: Config, req: Request): (r: Outcome<Object>)
    ensures r.Stop? <==> Scoped(c) && Anonymous(req)
    ensures r.Stop? ==> r.res == Unauthorized
    ensures r.Go? && Scoped(c) ==> c.accessKey in r.value && r.value[c.accessKey] == Str(req.user.value.id)
  {
    ScopeFilter(c, req, req.body)
  }

  /**
   * The `_id` Mongoose stores a new document under: the payload's own `_id` when it is an
   * ObjectId, else (when there is none) the generated `newId`.
   */
  function NewId(payload: Object, newId: Id): Option<Id> {
    if "_id" !in payload then Some(newId)
    else if payload["_id"].Str? && IsObjectId(payload["_id"].s) then Some(payload["_id"].s)
    else None
  }

  /**
   * `create`: scoping, the `pre` hook, then the insert. `pool` is the agent pool the renewal
   * hook draws from and `pick` its random index; `newId` is the ObjectId the driver generates.
   */
  function CreateEffect(c: Config, docs: map<Id, Doc>, order: seq<Id>, pool: seq<Id>, req: Request,
                        pick: nat, newId: Id, now: int): (e: Effect)
    requires c.createHook.RenewalCreate? && pool != [] ==> pick < |pool|
    ensures e.res.headersSent
    ensures e.res.status != 201 ==> e.docs == docs && e.order == order
  {
    match CreatePayload(c, req)
    case Stop(res) => Effect(res, docs, order)
    case Go(payload) =>
      match RunCreateHook(c.createHook, payload, req, docs, order, pool, pick)
      case Responded(status, body) => Effect(Send(Unsent, status, body), docs, order)
      case Threw => Effect(Failed(), docs, order)
      case Continue(p) =>
        var id := NewId(p, newId);
        if id.None? || id.value in docs then Effect(Failed(), docs, order)
        else
          var d := Created(p, now);
          Effect(Send(Unsent, 201, MessageData(c.name + " created successfully", WithId(id.value, d))),
                 docs[id.value := d], order + [id.value])
  }

  /**
   * A successful `create` adds exactly one document, holding the body's fields, with the
   * caller under `accessKey` on a scoped engine; an anonymous caller of a scoped engine
   * gets 401 and nothing is stored.
   */
  lemma CreateAddsOne(c: Config, docs: map<Id, Doc>, order: seq<Id>, pool: seq<Id>, req: Request,
                      pick: nat, newId: Id, now: int)
    requires c.createHook.NoCreateHook? && c.accessKey != "_id"
    requires newId !in docs && "_id" !in req.body
    ensures var e := CreateEffect(c, docs, order, pool, req, pick, newId, now);
      (Scoped(c) && Anonymous(req) ==> e.res == Unauthorized && e.docs == docs) &&
      (!(Scoped(c) && Anonymous(req)) ==>
         e.res.status == 201 && e.order == order + [newId] && e.docs.Keys == docs.Keys + {newId} &&
         (forall k :: k in req.body && k != "createdAt" && k != "updatedAt" && !(Scoped(c) && k == c.accessKey) ==>
            k in e.docs[newId] && e.docs[newId][k] == req.body[k]) &&
         (Scoped(c) && c.accessKey != "createdAt" && c.accessKey != "updatedAt" && c.accessKey != "_id" ==>
            e.docs[newId][c.accessKey] == Str(req.user.value.id)))
  {
    var r := CreatePayload(c, req);
    if r.Go? {
      assert "_id" !in r.value;
      assert NewId(r.value, newId) == Some(newId);
    }
  }

  /** The cibil engine creates a second record for nobody: a caller who already has one gets 400. */
  lemma CibilOnePerUser(c: Config, docs: map<Id, Doc>, order: seq<Id>, pool: seq<Id>, req: Request,
                        pick: nat, newId: Id, now: int)
    requires c.createHook.CibilCreate? && !Scoped(c)
    requires !Anonymous(req)
    requires exists id :: id in order && id in docs && "user" in docs[id] && docs[id]["user"] == Str(req.user.value.id)
    ensures var e := CreateEffect(c, docs, order, pool, req, pick, newId, now);
      e.res.status == 400 && e.docs == docs
  {
    var id :| id in order && id in docs && "user" in docs[id] && docs[id]["user"] == Str(req.user.value.id);
    assert Matches(id, docs[id], map["user" := Str(req.user.value.id)]);
    assert id in Select(docs, order, map["user" := Str(req.user.value.id)]);
  }

  /** The filter of `updateById` and `deleteById`: `{ _id: id }`, scoped. */
  function IdFilter(c: Config, req: Request): (r: Outcome<Object>)
    ensures r.Go? ==> Given(req.params, "id") && "_id" in r.value
    ensures r.Go? && Scoped(c) ==> !Anonymous(req)
    ensures r.Go? && Scoped(c) && c.accessKey != "_id" ==>
      c.accessKey in r.value && r.value[c.accessKey] == Str(req.user.value.id)
  {
    if !Given(req.params, "id") then Stop(Send(Unsent, 400, Message(c.name + " id is required")))
    else ScopeFilter(c, req, map["_id" := Str(req.params["id"])])
  }

  /** `findOneAndUpdate(filter, payload, { new: true })` and the answer to it. */
  function UpdateFound(c: Config, docs: map<Id, Doc>, order: seq<Id>, filter: Object, payload: Object, now: int): (e: Effect)
    ensures e.res.headersSent && e.order == order
    ensures e.res.status == 200 ==> exists x :: x in docs && Matches(x, docs[x], filter) && e.docs == docs[x := Updated(docs[x], payload, now)]
    ensures e.res.status != 200 ==> e.docs == docs
  {
    if CastFails(filter) then Effect(Failed(), docs, order)
    else
      var ids := Select(docs, order, filter);
      if ids == [] then Effect(Send(Unsent, 404, Message(c.name + " not found or unauthorized")), docs, order)
      else
        var x := ids[0];
        assert x in ids;
        var d := Updated(docs[x], payload, now);
        Effect(Send(Unsent, 200, MessageData(c.name + " updated successfully", WithId(x, d))), docs[x := d], order)
  }

  /**
   * `updateById`: the filter, the `pre` hook (which may save on its own), then the generic
   * update. `variant` says which customer hook runs: the program's (`AsWritten`) or the
   * corrected one.
   */
  function UpdateEffect(c: Config, docs: map<Id, Doc>, order: seq<Id>, req: Request, variant: Variant, now: int): (e: Effect)
    ensures e.res.headersSent
  {
    match IdFilter(c, req)
    case Stop(res) => Effect(res, docs, order)
    case Go(filter) =>
      match c.updateHook
      case NoUpdateHook => UpdateFound(c, docs, order, filter, req.body, now)
      case CustomerApplicationUpdate(kind) =>
        var step := Pre(kind, docs, order, filter, req.body, req.user, variant, now);
        var after := StoreAfter(docs, step, now);
        match step
        case Respond(status, body) => Effect(Send(Unsent, status, body), after, order)
        case Fail => Effect(Failed(), after, order)
        case Proceed(_, _, rest) => UpdateFound(c, after, order, filter, rest, now)
  }

  /**
   * On a scoped engine without a hook, `updateById` changes at most one document, and
   * only one whose `accessKey` is the caller; an anonymous caller gets 401 and nothing changes.
   */
  lemma UpdateOnlyOwn(c: Config, docs: map<Id, Doc>, order: seq<Id>, req: Request, variant: Variant, now: int)
    requires Scoped(c) && c.updateHook.NoUpdateHook? && c.accessKey != "_id" && Given(req.params, "id")
    ensures var e := UpdateEffect(c, docs, order, req, variant, now);
      (Anonymous(req) ==> e.res == Unauthorized && e.docs == docs) &&
      (e.docs == docs ||
       exists x :: x in docs && x == req.params["id"] && FieldMatches(x, docs[x], c.accessKey, Str(req.user.value.id)) &&
         e.docs == docs[x := Updated(docs[x], req.body, now)])
  {
    var e := UpdateEffect(c, docs, order, req, variant, now);
    if !Anonymous(req) && e.docs != docs {
      var filter := IdFilter(c, req).value;
      var x :| x in docs && Matches(x, docs[x], filter) && e.docs == docs[x := Updated(docs[x], req.body, now)];
      assert FieldMatches(x, docs[x], "_id", filter["_id"]);
      assert FieldMatches(x, docs[x], c.accessKey, filter[c.accessKey]);
    }
  }

  /**
   * A hook that answers or throws ends `updateById` before the generic update: the store
   * holds only what the hook itself saved.
   */
  lemma HookStopsUpdate(c: Config, docs: map<Id, Doc>, order: seq<Id>, req: Request, variant: Variant, now: int)
    requires c.updateHook.CustomerApplicationUpdate? && IdFilter(c, req).Go?
    ensures var step := Pre(c.updateHook.kind, docs, order, IdFilter(c, req).value, req.body, req.user, variant, now);
      !step.Proceed? ==> UpdateEffect(c, docs, order, req, variant, now).docs == docs
  {
  }

  /** `deleteById`: the filter, then `findOneAndDelete`. */
  function DeleteEffect(c: Config, docs: map<Id, Doc>, order: seq<Id>, req: Request): (e: Effect)
    ensures e.res.headersSent
    ensures e.res.status == 200 ==>
      (IdFilter(c, req).Go? &&
       exists x :: x in docs && x in order && Matches(x, docs[x], IdFilter(c, req).value) &&
         e.docs == docs - {x} && e.order == Erase(order, x))
    ensures e.res.status != 200 ==> e.docs == docs && e.order == order
  {
    match IdFilter(c, req)
    case Stop(res) => Effect(res, docs, order)
    case Go(filter) =>
      if CastFails(filter) then Effect(Failed(), docs, order)
      else
        var ids := Select(docs, order, filter);
        if ids == [] then Effect(Send(Unsent, 404, Message(c.name + " not found or unauthorized")), docs, order)
        else
          var x := ids[0];
          assert x in ids;
          Effect(Send(Unsent, 200, MessageData(c.name + " deleted successfully", WithId(x, docs[x]))),
                 docs - {x}, Erase(order, x))
  }

  /**
   * On a scoped engine `deleteById` removes at most one document, and only the caller's
   * own; every other document is still found afterwards.
   */
  lemma DeleteOnlyOwn(c: Config, docs: map<Id, Doc>, order: seq<Id>, req: Request)
    requires Scoped(c) && c.accessKey != "_id" && Given(req.params, "id")
    ensures var e := DeleteEffect(c, docs, order, req);
      (Anonymous(req) ==> e.res == Unauthorized && e.docs == docs) &&
      (e.docs == docs ||
       exists x :: x in docs && x == req.params["id"] && FieldMatches(x, docs[x], c.accessKey, Str(req.user.value.id)) &&
         e.docs == docs - {x})
  {
    var e := DeleteEffect(c, docs, order, req);
    if !Anonymous(req) && e.docs != docs {
      var filter := IdFilter(c, req).value;
      var x :| x in docs && x in order && Matches(x, docs[x], filter) && e.docs == docs - {x};
      assert FieldMatches(x, docs[x], "_id", filter["_id"]);
      assert FieldMatches(x, docs[x], c.accessKey, filter[c.accessKey]);
    }
  }

  /** `getAll`: every document, newest first, unpaged and unscoped. */
  function AllReply(c: Config, docs: map<Id, Doc>, order: seq<Id>): (res: Response)
    ensures res.status == 200 && res.body.Obj? && "data" in res.body.fields
    ensures var data := res.body.fields["data"]; data.Arr? && |data.items| == |order|
  {
    var all := NewestFirst(docs, order);
    assert |all| == |multiset(all)| == |multiset(order)| == |order|;
    Send(Unsent, 200, MessageData(c.name + " list fetched", Arr(Records(docs, all))))
  }

  /**
   * `getAll` lists every stored document once, newest first: the data are the records of a
   * reordering of the natural order in which `createdAt` never increases.
   */
  lemma AllNewestFirst(c: Config, docs: map<Id, Doc>, order: seq<Id>)
    requires forall id :: id in order ==> id in docs
    ensures var data := AllReply(c, docs, order).body.fields["data"];
      var all := NewestFirst(docs, order);
      multiset(all) == multiset(order) &&
      data.Arr? && |data.items| == |all| &&
      (forall i :: 0 <= i < |all| ==> all[i] in docs && data.items[i] == WithId(all[i], docs[all[i]])) &&
      (forall i, j :: 0 <= i < j < |all| ==> CreatedAt(docs[all[i]]) >= CreatedAt(docs[all[j]]))
  {
    var all := NewestFirst(docs, order);
    forall i | 0 <= i < |all|
      ensures all[i] in docs
    {
      assert all[i] in multiset(all);
    }
  }

  /** One controller: its configuration, its model's collection, and the users it draws agents from. */
  class Engine {
    const config: Config
    const records: Collection
    const users: Collection

    constructor (config: Config, records: Collection, users: Collection)
      ensures this.config == config && this.records == records && this.users == users
    {
      this.config := config;
      this.records := records;
      this.users := users;
    }

    /** `get`, statement by statement. */
    method Get(req: Request) returns (res: Response)
      ensures res == ListReply(config, records.docs, records.order, req)
    {
      var base := BuildFilter(req);
      if base.Stop? {
        return base.res;
      }
      var hooked := RunListHook(config.listHook, base.value, req);
      if hooked.Threw? {
        return Failed();
      }
      var filter := hooked.obj;
      var page := ParsePagination(config.pagination, req.query);
      if CastFails(filter) {
        return Failed();
      }
      var found := records.Find(filter);
      var ranked := if TruthyAt(filter, "$text") then found else NewestFirst(records.docs, found);
      var window := Window(ranked, page.skip, page.limit);
      if window.None? {
        return Failed();
      }
      var count := records.Count(filter);
      res := Send(Unsent, 200, Obj(map[
        "message" := Str(config.name + " fetched successfully"),
        "data" := Arr(Records(records.docs, window.value)),
        "count" := Num(count)]));
    }

    /** The filter `get` builds before its hook: the caller's scope, the declared fields and the search. */
    method BuildFilter(req: Request) returns (out: Outcome<Object>)
      ensures out == BaseListFilter(config, req)
    {
      var filter: Object := map[];
      if config.access == "user" {
        if req.user.None? || req.user.value.id == "" {
          return Stop(Unauthorized);
        }
        filter := filter[config.accessKey := Str(req.user.value.id)];
      }
      ghost var scoped := filter;
      for i := 0 to |config.params|
        invariant filter == DeclaredFilter(scoped, req.params, config.params[..i])
      {
        var key := config.params[i];
        assert config.params[..i + 1][..i] == config.params[..i];
        if key in req.params && req.params[key] != "" {
          filter := filter[key := Str(req.params[key])];
        }
      }
      assert config.params[..|config.params|] == config.params;
      ghost var declared := filter;
      for i := 0 to |config.query|
        invariant filter == DeclaredFilter(declared, req.query, config.query[..i])
      {
        var field := config.query[i];
        assert config.query[..i + 1][..i] == config.query[..i];
        if field in req.query && req.query[field] != "" {
          filter := filter[field := Str(req.query[field])];
        }
      }
      assert config.query[..|config.query|] == config.query;
      if "search" in req.query && req.query["search"] != "" {
        filter := filter["$text" := Obj(map["$search" := Str(req.query["search"])])];
      }
      out := Go(filter);
    }

    /** `getById`. */
    method GetById(req: Request) returns (res: Response)
      ensures res == ByIdReply(config, records.docs, req)
    {
      if !("id" in req.params && req.params["id"] != "") {
        return Send(Unsent, 400, Message(config.name + " id is required"));
      }
      var id := req.params["id"];
      if !IsObjectId(id) {
        return Failed();
      }
      if id !in records.docs {
        return Send(Unsent, 404, Message(config.name + " not found"));
      }
      res := Send(Unsent, 200, MessageData(config.name + " fetched successfully", WithId(id, records.docs[id])));
    }

    /** `create`: `pick` is the random index into the agent pool, `newId` the generated ObjectId. */
    method Create(req: Request, pick: nat, newId: Id, now: int) returns (res: Response)
      requires records.Valid()
      requires config.createHook.RenewalCreate? && AgentPool(users.docs, users.order) != [] ==>
        pick < |AgentPool(users.docs, users.order)|
      modifies records
      ensures records.Valid()
      ensures var e := old(CreateEffect(config, records.docs, records.order, AgentPool(users.docs, users.order), req, pick, newId, now));
        res == e.res && records.docs == e.docs && records.order == e.order
    {
      var payload := req.body;
      if config.access == "user" {
        if req.user.None? || req.user.value.id == "" {
          return Unauthorized;
        }
        payload := payload[config.accessKey := Str(req.user.value.id)];
      }
      assert CreatePayload(config, req) == Go(payload);
      var pool := AgentPool(users.docs, users.order);
      ghost var docs, order := records.docs, records.order;
      var hooked := RunCreateHook(config.createHook, payload, req, records.docs, records.order, pool, pick);
      match hooked
      case Responded(status, body) =>
        return Send(Unsent, status, body);
      case Threw =>
        return Failed();
      case Continue(p) =>
        var id := NewId(p, newId);
        if id.None? || id.value in records.docs {
          return Failed();
        }
        records.Insert(id.value, p, now);
        ghost var e := CreateEffect(config, docs, order, pool, req, pick, newId, now);
        assert e.docs == docs[id.value := Created(p, now)] && e.order == order + [id.value];
        res := Send(Unsent, 201, MessageData(config.name + " created successfully", WithId(id.value, records.docs[id.value])));
    }

    /** `updateById`. */
    method UpdateById(req: Request, now: int) returns (res: Response)
      requires records.Valid()
      modifies records
      ensures records.Valid()
      ensures var e := old(UpdateEffect(config, records.docs, records.order, req, AsWritten, now));
        res == e.res && records.docs == e.docs && records.order == e.order
    {
      var scoped := IdFilter(config, req);
      if scoped.Stop? {
        return scoped.res;
      }
      var filter := scoped.value;
      var payload := req.body;
      if config.updateHook.CustomerApplicationUpdate? {
        var hooked := RunPre(config.updateHook.kind, records, filter, payload, req.user, AsWritten, now);
        match hooked
        case Responded(status, body) =>
          return Send(Unsent, status, body);
        case Threw =>
          return Failed();
        case Continue(rest) =>
          payload := rest;
      }
      res := WriteUpdate(filter, payload, now);
    }

    /** `findOneAndUpdate(filter, payload, { new: true })` and the answer to it. */
    method WriteUpdate(filter: Object, payload: Object, now: int) returns (res: Response)
      requires records.Valid()
      modifies records
      ensures records.Valid()
      ensures var e := old(UpdateFound(config, records.docs, records.order, filter, payload, now));
        res == e.res && records.docs == e.docs && records.order == e.order
    {
      ghost var before := records.docs;
      if CastFails(filter) {
        return Failed();
      }
      var found := records.FindFirst(filter);
      if found.None? {
        return Send(Unsent, 404, Message(config.name + " not found or unauthorized"));
      }
      var x := found.value;
      records.Update(x, payload, now);
      res := Send(Unsent, 200, MessageData(config.name + " updated successfully", WithId(x, records.docs[x])));
      assert UpdateFound(config, before, records.order, filter, payload, now) == Effect(res, records.docs, records.order);
    }

    /** `deleteById`. */
    method DeleteById(req: Request) returns (res: Response)
      requires records.Valid()
      modifies records
      ensures records.Valid()
      ensures var e := old(DeleteEffect(config, records.docs, records.order, req));
        res == e.res && records.docs == e.docs && records.order == e.order
    {
      var scoped := IdFilter(config, req);
      if scoped.Stop? {
        return scoped.res;
      }
      var filter := scoped.value;
      if CastFails(filter) {
        return Failed();
      }
      var found := records.FindFirst(filter);
      if found.None? {
        return Send(Unsent, 404, Message(config.name + " not found or unauthorized"));
      }
      var x := found.value;
      var deleted := records.docs[x];
      records.Delete(x);
      res := Send(Unsent, 200, MessageData(config.name + " deleted successfully", WithId(x, deleted)));
    }

    /** `getAll`. */
    method GetAll() returns (res: Response)
      ensures res == AllReply(config, records.docs, records.order)
    {
      var all := NewestFirst(records.docs, records.order);
      res := Send(Unsent, 200, MessageData(config.name + " list fetched", Arr(Records(records.docs, all))));
    }
  }
}
