/**
 * The engine configurations the controllers build (controller/loan.js, controller/credit.js,
 * controller/insurance.js, controller/cibil.js, controller/InsuranceRenewal.js,
 * controller/media.js), and what each one gives its routes. Every list controller passes
 * `config.pagination`; none of the application controllers asks for `access: 'user'`, so
 * their ownership comes from hooks alone.
 */
module Controllers {
  import opened Wrappers
  import opened Json
  import opened Store
  import opened Http
  import opened ApplicationStatus
  import opened Hooks
  import opened BaseController

  const LoanCustomer := Configure(Options("Loan Application", "customer", "", Some(ConfiguredPagination),
    [], ["loanType"], ScopeToActor("user"), NoCreateHook, CustomerApplicationUpdate(Loan)), "Loan")

  const LoanAgent := Configure(Options("Loan Application", "agent", "", Some(ConfiguredPagination),
    [], ["status.state", "loanType"], ScopeToActor("agent"), NoCreateHook, NoUpdateHook), "Loan")

  const CreditCustomer := Configure(Options("Credit Card application", "customer", "", Some(ConfiguredPagination),
    [], ["status.state"], ScopeToActor("user"), NoCreateHook, CustomerApplicationUpdate(Credit)), "Credit")

  const CreditAgent := Configure(Options("Credit Application", "agent", "", Some(ConfiguredPagination),
    [], ["status.state", "name"], ScopeToActor("agent"), NoCreateHook, NoUpdateHook), "Credit")

  const InsuranceCustomer := Configure(Options("Insurance", "customer", "", Some(ConfiguredPagination),
    [], [], ScopeToActor("user"), NoCreateHook, NoUpdateHook), "Insurance")

  const InsuranceAgent := Configure(Options("Insurance Application", "agent", "", Some(ConfiguredPagination),
    [], ["name", "status.state"], ScopeToActor("agent"), NoCreateHook, NoUpdateHook), "Insurance")

  const CibilController := Configure(Options("Cibil", "customer", "", Some(ConfiguredPagination),
    [], [], ScopeToActor("user"), CibilCreate, NoUpdateHook), "Cibil")

  /** No `access`: the engine's default `'admin'`. */
  const RenewalController := Configure(Options("Insurance Renewal", "", "", Some(ConfiguredPagination),
    [], [], NoListHook, RenewalCreate, NoUpdateHook), "InsuranceRenewal")

  const PublicMedia := Configure(Options("", "admin", "", Some(ConfiguredPagination),
    [], [], PublicMediaScope, NoCreateHook, NoUpdateHook), "Image")

  const PrivateMedia := Configure(Options("", "user", "createdBy", Some(ConfiguredPagination),
    [], [], NoListHook, NoCreateHook, NoUpdateHook), "Image")

  /**
   * An engine that is not scoped but whose list hook writes the caller into `field`: an
   * anonymous list ends in 500 whatever the store holds; otherwise the filter holds the
   * caller under `field` (the hook runs after the declared fields, so none overrides it)
   * and every listed record has the caller in that field.
   */
  lemma {:induction false} HookScopedList(c: Config, docs: map<Id, Doc>, order: seq<Id>, req: Request)
    requires !Scoped(c) && c.listHook.ScopeToActor? && Evaluated(c.listHook.field)
    ensures Anonymous(req) ==> ListReply(c, docs, order, req) == Failed()
    ensures !Anonymous(req) ==>
      var f := ListFilter(c, req);
      f.Go? && c.listHook.field in f.value && f.value[c.listHook.field] == Str(req.user.value.id) &&
      forall x :: x in Ranked(docs, order, f.value) ==>
        x in docs && FieldMatches(x, docs[x], c.listHook.field, Str(req.user.value.id))
  {
    var base := BaseListFilter(c, req);
    assert base.Go?;
    if !Anonymous(req) {
      var f := ListFilter(c, req);
      RankedMatches(docs, order, f.value);
      forall x | x in Ranked(docs, order, f.value)
        ensures x in docs && FieldMatches(x, docs[x], c.listHook.field, Str(req.user.value.id))
      {
        assert Matches(x, docs[x], f.value);
        assert FieldMatches(x, docs[x], c.listHook.field, f.value[c.listHook.field]);
      }
    }
  }

  /**
   * The customer lists of loan, credit, insurance and cibil show the caller's own records
   * only, and the agent lists the records assigned to the caller; neither engine scopes
   * by itself.
   */
  lemma {:induction false} ApplicationListsOwned(c: Config, docs: map<Id, Doc>, order: seq<Id>, req: Request)
    requires c in {LoanCustomer, CreditCustomer, InsuranceCustomer, CibilController, LoanAgent, CreditAgent, InsuranceAgent}
    ensures !Scoped(c)
    ensures var field := if c.access == "customer" then "user" else "agent";
      (Anonymous(req) ==> ListReply(c, docs, order, req) == Failed()) &&
      (!Anonymous(req) ==>
        var f := ListFilter(c, req);
        f.Go? && f.value[field] == Str(req.user.value.id) &&
        forall x :: x in Ranked(docs, order, f.value) ==> x in docs && FieldMatches(x, docs[x], field, Str(req.user.value.id)))
  {
    assert c.listHook == ScopeToActor(if c.access == "customer" then "user" else "agent");
    HookScopedList(c, docs, order, req);
  }

  /**
   * The private media list is scoped by the engine itself: 401 without a caller, and
   * otherwise the filter holds the caller under `createdBy`.
   */
  lemma {:induction false} PrivateMediaOwned(docs: map<Id, Doc>, order: seq<Id>, req: Request)
    ensures Anonymous(req) ==> ListReply(PrivateMedia, docs, order, req) == Unauthorized
    ensures !Anonymous(req) ==>
      var f := ListFilter(PrivateMedia, req);
      f.Go? && "createdBy" in f.value && f.value["createdBy"] == Str(req.user.value.id)
  {
    assert Scoped(PrivateMedia) && PrivateMedia.accessKey == "createdBy";
    ListScoping(PrivateMedia, docs, order, req);
  }

  /**
   * The public media engine and the renewal engine use the default `'admin'` access:
   * update and delete look a record up by `_id` alone, whoever asks.
   */
  lemma {:induction false} AdminAccessUnscoped(c: Config, req: Request)
    requires c in {PublicMedia, RenewalController}
    requires Given(req.params, "id")
    ensures c.access == "admin"
    ensures IdFilter(c, req) == Go(map["_id" := Str(req.params["id"])])
  {
    assert !Scoped(c);
  }

  /**
   * Renewal create: without a caller or without agents the hook throws and the answer is
   * 500 with nothing stored; otherwise the record belongs to the caller, its agent is in
   * the pool, and it gets no status entry the body did not bring.
   */
  lemma {:induction false} RenewalCreateOutcome(docs: map<Id, Doc>, order: seq<Id>, pool: seq<Id>, req: Request,
                                                pick: nat, newId: Id, now: int)
    requires pool != [] ==> pick < |pool|
    requires newId !in docs && "_id" !in req.body
    ensures var e := CreateEffect(RenewalController, docs, order, pool, req, pick, newId, now);
      (Anonymous(req) || pool == [] ==> e.res == Failed() && e.docs == docs && e.order == order) &&
      (!Anonymous(req) && pool != [] ==>
        e.res.status == 201 && e.order == order + [newId] && newId in e.docs &&
        e.docs[newId]["user"] == Str(req.user.value.id) &&
        e.docs[newId]["agent"].Str? && e.docs[newId]["agent"].s in pool &&
        ("status" in e.docs[newId] <==> "status" in req.body))
  {
    var c := RenewalController;
    assert !Scoped(c) && c.createHook == RenewalCreate;
    assert CreatePayload(c, req) == Go(req.body);
    RenewalCreateBinds(req.body, req, docs, order, pool, pick);
    if !Anonymous(req) && pool != [] {
      var p := RunCreateHook(RenewalCreate, req.body, req, docs, order, pool, pick).obj;
      assert "_id" !in p;
      assert NewId(p, newId) == Some(newId);
    }
  }

  /**
   * Cibil create: 401 without a caller, 400 for a caller who already owns a record, and
   * otherwise one record bound to the caller whatever `user` the body names.
   */
  lemma {:induction false} CibilCreateOutcome(docs: map<Id, Doc>, order: seq<Id>, pool: seq<Id>, req: Request,
                                              pick: nat, newId: Id, now: int)
    requires newId !in docs && "_id" !in req.body
    ensures var e := CreateEffect(CibilController, docs, order, pool, req, pick, newId, now);
      (Anonymous(req) ==> e.res.status == 401 && e.docs == docs) &&
      (!Anonymous(req) && (exists id :: id in order && id in docs && "user" in docs[id] && docs[id]["user"] == Str(req.user.value.id)) ==>
        e.res.status == 400 && e.docs == docs) &&
      (e.res.status == 201 ==> e.order == order + [newId] && e.docs[newId]["user"] == Str(req.user.value.id))
  {
    var c := CibilController;
    assert !Scoped(c) && c.createHook == CibilCreate;
    assert CreatePayload(c, req) == Go(req.body);
    CibilCreateOnePerUser(req.body, req, docs, order, pool, pick);
    if !Anonymous(req) && (exists id :: id in order && id in docs && "user" in docs[id] && docs[id]["user"] == Str(req.user.value.id)) {
      CibilOnePerUser(c, docs, order, pool, req, pick, newId, now);
    }
    var r := RunCreateHook(CibilCreate, req.body, req, docs, order, pool, pick);
    if r.Continue? {
      assert "_id" !in r.obj;
      assert NewId(r.obj, newId) == Some(newId);
    }
  }
}
