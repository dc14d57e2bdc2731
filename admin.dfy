/**
 * The admin controller's own handlers (controller/admin.js): the cross-kind listing
 * `getAllLoans`, the by-type handlers `getLoanById`, `updateLoanById` and `deleteLoanById`,
 * which pick the model from a case-insensitive `type`, and `toggleBlockUser`.
 */
module Admin {
  import opened Wrappers
  import opened Json
  import opened JsNumber
  import opened Sorting
  import opened Store
  import opened Http
  import opened ApplicationStatus
  import opened UserSchema

  /** One collection as the handlers read it. */
  datatype Table = Table(docs: map<Id, Doc>, order: seq<Id>)

  /** The three application collections. */
  datatype Tables = Tables(credits: Table, insurances: Table, loans: Table)

  function TableOf(t: Tables, kind: Kind): Table {
    match kind
    case Credit => t.credits
    case Insurance => t.insurances
    case Loan => t.loans
  }

  /** `t` with the collection of `kind` replaced. */
  function WithTable(t: Tables, kind: Kind, table: Table): (r: Tables)
    ensures TableOf(r, kind) == table
    ensures forall k :: k != kind ==> TableOf(r, k) == TableOf(t, k)
  {
    match kind
    case Credit => t.(credits := table)
    case Insurance => t.(insurances := table)
    case Loan => t.(loans := table)
  }

  /** The `type` tag of a kind, which is also the lower-case name the switch accepts. */
  function TypeName(kind: Kind): string {
    match kind
    case Credit => "credit"
    case Insurance => "insurance"
    case Loan => "loan"
  }

  /** The admin handlers' `catch`. */
  const AdminError := Send(Unsent, 500, Message("Server error"))

  // ---------------------------------------------------------------- getAllLoans

  /**
   * The kinds `getAllLoans` queries: all three for an absent (or empty) `type` or
   * "all", the one kind whose tag equals `type`, and none for anything else. This test,
   * unlike the by-type switch, is case-sensitive.
   */
  function Selected(query: map<string, string>): (sel: set<Kind>)
    ensures !Given(query, "type") || query["type"] == "all" ==> sel == {Credit, Insurance, Loan}
    ensures Given(query, "type") && query["type"] != "all" ==> forall k :: k in sel <==> query["type"] == TypeName(k)
  {
    if !Given(query, "type") || query["type"] == "all" then {Credit, Insurance, Loan}
    else set k: Kind | query["type"] == TypeName(k)
  }

  /**
   * The equality filter of `getAllLoans`: `user` and `agent` from `userId` and `agentId`
   * (`None` when either is not an ObjectId, which throws), and `status.state` from `status`.
   */
  function AdminFilter(query: map<string, string>): (f: Option<Object>)
    ensures f.Some? ==> forall k :: k in f.value ==> k in {"user", "agent", "status.state"}
    ensures f.None? <==> (Given(query, "userId") && !IsObjectId(query["userId"])) ||
                         (Given(query, "agentId") && !IsObjectId(query["agentId"]))
  {
    if Given(query, "userId") && !IsObjectId(query["userId"]) then None
    else if Given(query, "agentId") && !IsObjectId(query["agentId"]) then None
    else
      var f0: Object := map[];
      var f1 := if Given(query, "userId") then f0["user" := Str(query["userId"])] else f0;
      var f2 := if Given(query, "agentId") then f1["agent" := Str(query["agentId"])] else f1;
      Some(if Given(query, "status") then f2["status.state" := Str(query["status"])] else f2)
  }

  /**
   * The `createdAt` window of `startDate`/`endDate`, as instants: the start, and the last
   * millisecond of the end's day. Date parsing is the caller's.
   */
  datatype DateRange = DateRange(from: Option<int>, to: Option<int>)

  predicate InRange(doc: Doc, range: DateRange) {
    (range.from.Some? ==> CreatedAt(doc) >= range.from.value) &&
    (range.to.Some? ==> CreatedAt(doc) <= range.to.value)
  }

  /** The ids of `ids` whose document lies in the window, in order. */
  function Within(docs: map<Id, Doc>, ids: seq<Id>, range: DateRange): (r: seq<Id>)
    ensures forall id :: id in r <==> id in ids && id in docs && InRange(docs[id], range)
    ensures |r| <= |ids|
  {
    if ids == [] then []
    else
      var rest := Within(docs, ids[..|ids| - 1], range);
      var id := ids[|ids| - 1];
      assert ids == ids[..|ids| - 1] + [id];
      if id in docs && InRange(docs[id], range) then rest + [id] else rest
  }

  /** `Model.find(filter)` with the date window, in natural order. */
  function Found(table: Table, filter: Object, range: DateRange): (ids: seq<Id>)
    ensures forall id :: id in ids ==> id in table.docs && Matches(id, table.docs[id], filter) && InRange(table.docs[id], range)
  {
    Within(table.docs, Select(table.docs, table.order, filter), range)
  }

  /** `{ ...doc, type }` of a lean document. */
  function TaggedItem(kind: Kind, id: Id, doc: Doc): (j: Json)
    ensures j.Obj? && "type" in j.fields && j.fields["type"] == Str(TypeName(kind))
    ensures "_id" in j.fields && j.fields["_id"] == Str(id)
    ensures forall k :: k in doc && k != "_id" && k != "type" ==> k in j.fields && j.fields[k] == doc[k]
    ensures forall k :: k in j.fields ==> k in doc || k == "_id" || k == "type"
  {
    Obj(doc["_id" := Str(id)]["type" := Str(TypeName(kind))])
  }

  /** `docs.map(d => ({ ...d, type }))` over the documents a kind's query found. */
  function Tagged(kind: Kind, table: Table, ids: seq<Id>): (items: seq<Json>)
    requires forall id :: id in ids ==> id in table.docs
    ensures |items| == |ids|
    ensures forall i :: 0 <= i < |ids| ==> items[i] == TaggedItem(kind, ids[i], table.docs[ids[i]])
  {
    seq(|ids|, i requires 0 <= i < |ids| => TaggedItem(kind, ids[i], table.docs[ids[i]]))
  }

  /** A selected kind's tagged results; an unselected kind contributes `[]`. */
  function Part(t: Tables, sel: set<Kind>, kind: Kind, filter: Object, range: DateRange): (items: seq<Json>)
    ensures kind !in sel ==> items == []
    ensures kind in sel ==> |items| == |Found(TableOf(t, kind), filter, range)|
    ensures forall j :: j in items ==> j.Obj? && "type" in j.fields && j.fields["type"] == Str(TypeName(kind))
  {
    if kind in sel then
      var ids := Found(TableOf(t, kind), filter, range);
      var items := Tagged(kind, TableOf(t, kind), ids);
      assert forall j :: j in items ==> exists i :: 0 <= i < |ids| && j == items[i];
      items
    else []
  }

  /** `[...credits, ...insurances, ...loans]`. */
  function Merged(t: Tables, sel: set<Kind>, filter: Object, range: DateRange): seq<Json> {
    Part(t, sel, Credit, filter, range) + Part(t, sel, Insurance, filter, range) + Part(t, sel, Loan, filter, range)
  }

  function ItemCreatedAt(j: Json): int {
    if j.Obj? then CreatedAt(j.fields) else 0
  }

  /** `allLoans.sort((a, b) => new Date(b.createdAt) - new Date(a.createdAt))`, a stable sort. */
  function Ranked(t: Tables, sel: set<Kind>, filter: Object, range: DateRange): seq<Json> {
    SortDesc(Merged(t, sel, filter, range), ItemCreatedAt)
  }

  /** Where `Array.prototype.slice` starts or stops for index `i` on `n` items: negative counts from the end. */
  function SliceIndex(n: nat, i: int): (r: nat)
    ensures r <= n
    ensures 0 <= i <= n ==> r == i
    ensures i > n ==> r == n
    ensures i < 0 && -i <= n ==> n - r == -i
    ensures i < 0 && -i > n ==> r == 0
  {
    if i < 0 then (if n + i < 0 then 0 else n + i) else if i > n then n else i
  }

  /** `xs.slice(start, end)`. */
  function Slice<T>(xs: seq<T>, start: int, end: int): (r: seq<T>)
    ensures start <= end ==> |r| <= end - start
    ensures var from := SliceIndex(|xs|, start); var to := SliceIndex(|xs|, end);
      |r| == if to > from then to - from else 0
    ensures 0 <= start <= end <= |xs| ==> r == xs[start..end]
    ensures forall i :: 0 <= i < |r| ==> SliceIndex(|xs|, start) + i < |xs| && r[i] == xs[SliceIndex(|xs|, start) + i]
  {
    var from := SliceIndex(|xs|, start);
    var to := SliceIndex(|xs|, end);
    assert start <= end ==> to - from <= end - start by {
      if start <= end {
        SliceIndexSpan(|xs|, start, end);
      }
    }
    if to > from then xs[from..to] else []
  }

  /** Clamping never widens a span: the slice bounds are at most `end - start` apart. */
  lemma SliceIndexSpan(n: nat, start: int, end: int)
    requires start <= end
    ensures SliceIndex(n, end) - SliceIndex(n, start) <= end - start
  {
  }

  /** `Math.ceil(total / limit)` for a non-zero integer limit. */
  function TotalPages(total: nat, limit: int): (r: int)
    requires limit != 0
    ensures limit > 0 ==> (r - 1) * limit < total <= r * limit
    ensures limit < 0 ==> r <= 0 && r * limit <= total < (r - 1) * limit
  {
    if limit > 0 then (total + limit - 1) / limit else -(total / -limit)
  }

  /** `parseInt(req.query.page) || 1` and `parseInt(req.query.limit) || 10`: no cap, no lower bound. */
  function AdminPage(query: map<string, string>): (p: (int, int))
    ensures p.1 != 0
  {
    (OrDefault(ParseQuery(query, "page", Unspecified), 1), OrDefault(ParseQuery(query, "limit", Unspecified), 10))
  }

  /** `getAllLoans` on the three collections. */
  function AllLoansReply(t: Tables, query: map<string, string>, range: DateRange): (res: Response)
    ensures res.headersSent
  {
    match AdminFilter(query)
    case None => AdminError
    case Some(filter) =>
      var ranked := Ranked(t, Selected(query), filter, range);
      var (page, limit) := AdminPage(query);
      var start := (page - 1) * limit;
      Send(Unsent, 200, Obj(map[
        "totalLoans" := Num(|ranked|),
        "page" := Num(page),
        "limit" := Num(limit),
        "totalPages" := Num(TotalPages(|ranked|, limit)),
        "loans" := Arr(Slice(ranked, start, start + limit))]))
  }

  /** Every item `getAllLoans` ranks is tagged with a selected kind. */
  lemma {:induction false} AllLoansTagged(t: Tables, sel: set<Kind>, filter: Object, range: DateRange)
    ensures forall j :: j in Ranked(t, sel, filter, range) ==>
      exists k :: k in sel && j.Obj? && "type" in j.fields && j.fields["type"] == Str(TypeName(k))
  {
    var merged := Merged(t, sel, filter, range);
    forall j | j in Ranked(t, sel, filter, range)
      ensures exists k :: k in sel && j.Obj? && "type" in j.fields && j.fields["type"] == Str(TypeName(k))
    {
      SortDescSameItems(merged, ItemCreatedAt, j);
      TaggedPart(t, sel, filter, range, j);
    }
  }

  lemma TaggedPart(t: Tables, sel: set<Kind>, filter: Object, range: DateRange, j: Json)
    requires j in Merged(t, sel, filter, range)
    ensures exists k :: k in sel && j.Obj? && "type" in j.fields && j.fields["type"] == Str(TypeName(k))
  {
    var c := Part(t, sel, Credit, filter, range);
    var i := Part(t, sel, Insurance, filter, range);
    var l := Part(t, sel, Loan, filter, range);
    assert j in c || j in i || j in l;
    if j in c {
      assert Credit in sel;
    } else if j in i {
      assert Insurance in sel;
    } else {
      assert Loan in sel;
    }
  }

  /** `totalLoans` is the sum of the three query results, each counted only for a selected kind. */
  lemma {:induction false} AllLoansTotal(t: Tables, sel: set<Kind>, filter: Object, range: DateRange)
    ensures |Ranked(t, sel, filter, range)| ==
      (if Credit in sel then |Found(t.credits, filter, range)| else 0) +
      (if Insurance in sel then |Found(t.insurances, filter, range)| else 0) +
      (if Loan in sel then |Found(t.loans, filter, range)| else 0)
  {
    var c := Part(t, sel, Credit, filter, range);
    var i := Part(t, sel, Insurance, filter, range);
    var l := Part(t, sel, Loan, filter, range);
    assert |c| == (if Credit in sel then |Found(t.credits, filter, range)| else 0);
    assert |i| == (if Insurance in sel then |Found(t.insurances, filter, range)| else 0);
    assert |l| == (if Loan in sel then |Found(t.loans, filter, range)| else 0);
    assert |Merged(t, sel, filter, range)| == |c| + |i| + |l|;
  }

  /**
   * A page of a newest-first list: newest first itself, a run of consecutive items, and
   * for a positive limit and a start within the list exactly `limit` items or all that
   * remain, with `totalPages` pages of `limit` covering the total exactly. A negative limit is not rejected: a slice starting at 0
   * keeps everything but the last `-limit` items.
   */
  lemma {:induction false} PageOfRanked(ranked: seq<Json>, start: int, limit: int)
    requires limit != 0
    requires SortedDesc(ranked, ItemCreatedAt)
    ensures var items := Slice(ranked, start, start + limit);
      var pages := TotalPages(|ranked|, limit);
      (forall i, j :: 0 <= i < j < |items| ==> ItemCreatedAt(items[i]) >= ItemCreatedAt(items[j])) &&
      (forall i :: 0 <= i < |items| ==> items[i] == ranked[SliceIndex(|ranked|, start) + i]) &&
      (limit > 0 ==> |items| <= limit && (pages - 1) * limit < |ranked| <= pages * limit) &&
      (limit > 0 && 0 <= start ==>
        |items| == if start >= |ranked| then 0 else if |ranked| - start < limit then |ranked| - start else limit) &&
      (limit < 0 && start == 0 ==> items == ranked[..SliceIndex(|ranked|, limit)])
  {
    SliceKeepsOrder(ranked, start, start + limit);
    if limit < 0 && start == 0 {
      SliceFromStart(ranked, limit);
    }
  }

  /** A slice of a newest-first list is newest first. */
  lemma SliceKeepsOrder(ranked: seq<Json>, start: int, end: int)
    requires SortedDesc(ranked, ItemCreatedAt)
    ensures var items := Slice(ranked, start, end);
      forall i, j :: 0 <= i < j < |items| ==> ItemCreatedAt(items[i]) >= ItemCreatedAt(items[j])
  {
    var items := Slice(ranked, start, end);
    var from := SliceIndex(|ranked|, start);
    forall i, j | 0 <= i < j < |items|
      ensures ItemCreatedAt(items[i]) >= ItemCreatedAt(items[j])
    {
      var a, b := from + i, from + j;
      assert 0 <= a < b < |ranked| && items[i] == ranked[a] && items[j] == ranked[b];
      assert ItemCreatedAt(ranked[a]) >= ItemCreatedAt(ranked[b]);
    }
  }

  /** `slice(0, end)` with a negative end drops the last `-end` items. */
  lemma SliceFromStart(ranked: seq<Json>, end: int)
    requires end < 0
    ensures Slice(ranked, 0, end) == ranked[..SliceIndex(|ranked|, end)]
  {
  }

  /**
   * `getAllLoans` answers with the page of the ranked list the query asks for, and the
   * total of the whole ranked list.
   */
  lemma {:induction false} AllLoansPage(t: Tables, query: map<string, string>, range: DateRange)
    requires AdminFilter(query).Some?
    ensures var ranked := Ranked(t, Selected(query), AdminFilter(query).value, range);
      var (page, limit) := AdminPage(query);
      var start := (page - 1) * limit;
      var body := AllLoansReply(t, query, range).body;
      AllLoansReply(t, query, range).status == 200 &&
      body.Obj? && body.fields["loans"] == Arr(Slice(ranked, start, start + limit)) &&
      body.fields["totalLoans"] == Num(|ranked|) && body.fields["totalPages"] == Num(TotalPages(|ranked|, limit)) &&
      SortedDesc(ranked, ItemCreatedAt)
  {
  }

  /** The kind selection is exact: a query for one kind lists only that kind's records, and an unknown `type` lists nothing. */
  lemma {:induction false} AllLoansSelection(t: Tables, query: map<string, string>, range: DateRange, kind: Kind)
    requires AdminFilter(query).Some? && Given(query, "type")
    ensures query["type"] == TypeName(kind) ==>
      Merged(t, Selected(query), AdminFilter(query).value, range) == Part(t, {kind}, kind, AdminFilter(query).value, range)
    ensures query["type"] !in {"all", "credit", "insurance", "loan"} ==>
      Ranked(t, Selected(query), AdminFilter(query).value, range) == []
  {
    var sel := Selected(query);
    var filter := AdminFilter(query).value;
    if query["type"] == TypeName(kind) {
      assert sel == {kind};
      MergedOfOne(t, kind, filter, range);
    }
    if query["type"] !in {"all", "credit", "insurance", "loan"} {
      assert sel == {};
      assert Merged(t, sel, filter, range) == [];
    }
  }

  /** With one kind selected, the merged list is that kind's part alone. */
  lemma MergedOfOne(t: Tables, kind: Kind, filter: Object, range: DateRange)
    ensures Merged(t, {kind}, filter, range) == Part(t, {kind}, kind, filter, range)
  {
    var p := Part(t, {kind}, kind, filter, range);
    match kind {
      case Credit =>
        assert Merged(t, {kind}, filter, range) == p + [] + [];
      case Insurance =>
        assert Merged(t, {kind}, filter, range) == [] + p + [];
      case Loan =>
        assert Merged(t, {kind}, filter, range) == [] + [] + p;
    }
  }

  // ---------------------------------------------------------------- dispatch by type

  /** `String.prototype.toLowerCase` on the letters the switch compares (A–Z). */
  function Lower(c: char): char {
    if 'A' <= c <= 'Z' then (c as int + 32) as char else c
  }

  /** The letters are lowered and nothing else changes, so the result has no capital letter left. */
  function ToLower(s: string): (r: string)
    ensures |r| == |s| && forall i :: 0 <= i < |s| ==> r[i] == Lower(s[i])
    ensures forall i :: 0 <= i < |r| ==> !('A' <= r[i] <= 'Z')
    ensures forall i :: 0 <= i < |s| && !('A' <= s[i] <= 'Z') ==> r[i] == s[i]
  {
    seq(|s|, i requires 0 <= i < |s| => Lower(s[i]))
  }

  /** `switch (type.toLowerCase())` over 'credit', 'insurance' and 'loan'. */
  function DispatchKind(tag: string): Option<Kind> {
    var lower := ToLower(tag);
    if lower == "credit" then Some(Credit)
    else if lower == "insurance" then Some(Insurance)
    else if lower == "loan" then Some(Loan)
    else None
  }

  /**
   * The switch ignores case: two tags that differ only in the case of their letters pick
   * the same model, and every kind is picked by its own tag.
   */
  lemma {:induction false} DispatchIgnoresCase(a: string, b: string, kind: Kind)
    requires |a| == |b| && forall i :: 0 <= i < |a| ==> Lower(a[i]) == Lower(b[i])
    ensures DispatchKind(a) == DispatchKind(b)
    ensures DispatchKind(TypeName(kind)) == Some(kind)
  {
    assert ToLower(a) == ToLower(b);
    var name := TypeName(kind);
    assert ToLower(name) == name by {
      forall i | 0 <= i < |name|
        ensures Lower(name[i]) == name[i]
      {
      }
    }
  }

  /** What the by-type handlers do before touching a model: 400 for a missing id or type, or an unknown type. */
  function Dispatch(params: map<string, string>, invalid: string): (r: Outcome)
    ensures r.Go? <==> Given(params, "id") && Given(params, "type") && DispatchKind(params["type"]).Some?
    ensures r.Stop? ==> r.res.status == 400
    ensures r.Go? ==> r.kind == DispatchKind(params["type"]).value && r.id == params["id"]
  {
    if !Given(params, "id") || !Given(params, "type") then Stop(Send(Unsent, 400, Message("Please provide id and type")))
    else
      var kind := DispatchKind(params["type"]);
      if kind.None? then Stop(Send(Unsent, 400, Message(invalid))) else Go(kind.value, params["id"])
  }

  datatype Outcome = Stop(res: Response) | Go(kind: Kind, id: Id)

  /** `getLoanById`: the document of the picked kind, whoever asks. */
  function ByTypeReply(t: Tables, params: map<string, string>): (res: Response)
    ensures res.headersSent
    ensures Dispatch(params, "Invalid type").Stop? ==> res.status == 400
    ensures Dispatch(params, "Invalid type").Go? ==>
      var docs := TableOf(t, DispatchKind(params["type"]).value).docs;
      var id := params["id"];
      (IsObjectId(id) ==> (res.status == 404 <==> id !in docs)) &&
      (res.status == 200 <==> IsObjectId(id) && id in docs) &&
      (res.status == 200 ==> res.body == MessageData(params["type"] + " fetched successfully", WithId(id, docs[id])))
  {
    match Dispatch(params, "Invalid type")
    case Stop(res) => res
    case Go(kind, id) =>
      var table := TableOf(t, kind);
      if !IsObjectId(id) then AdminError
      else if id !in table.docs then Send(Unsent, 404, Message("Document not found"))
      else Send(Unsent, 200, MessageData(params["type"] + " fetched successfully", WithId(id, table.docs[id])))
  }

  /** A response and the three collections after an admin write. */
  datatype AdminEffect = AdminEffect(res: Response, tables: Tables)

  /** `updateLoanById`: `findByIdAndUpdate(id, { $set: body })` on the picked kind. */
  function AdminUpdateEffect(t: Tables, params: map<string, string>, body: Object, now: int): (e: AdminEffect)
    ensures e.res.headersSent
  {
    match Dispatch(params, "Invalid loan type")
    case Stop(res) => AdminEffect(res, t)
    case Go(kind, id) =>
      var table := TableOf(t, kind);
      if !IsObjectId(id) then AdminEffect(AdminError, t)
      else if id !in table.docs then AdminEffect(Send(Unsent, 404, Message("Document not found")), t)
      else
        var d := Updated(table.docs[id], map["$set" := Obj(body)], now);
        AdminEffect(Send(Unsent, 200, MessageData("Document updated successfully", WithId(id, d))),
                    WithTable(t, kind, Table(table.docs[id := d], table.order)))
  }

  /** `deleteLoanById`: `findByIdAndDelete(id)` on the picked kind. */
  function AdminDeleteEffect(t: Tables, params: map<string, string>): (e: AdminEffect)
    ensures e.res.headersSent
  {
    match Dispatch(params, "Invalid type")
    case Stop(res) => AdminEffect(res, t)
    case Go(kind, id) =>
      var table := TableOf(t, kind);
      if !IsObjectId(id) then AdminEffect(AdminError, t)
      else if id !in table.docs then AdminEffect(Send(Unsent, 404, Message("Document not found")), t)
      else
        AdminEffect(Send(Unsent, 200, MessageData(params["type"] + " deleted successfully", WithId(id, table.docs[id]))),
                    WithTable(t, kind, Table(table.docs - {id}, Erase(table.order, id))))
  }

  /** A missing id or type, or an unknown type, answers 400 and changes no collection. */
  lemma {:induction false} BadDispatchTouchesNothing(t: Tables, params: map<string, string>, body: Object, now: int)
    requires !Given(params, "id") || !Given(params, "type") || DispatchKind(params["type"]).None?
    ensures AdminUpdateEffect(t, params, body, now) == AdminEffect(AdminUpdateEffect(t, params, body, now).res, t)
    ensures AdminDeleteEffect(t, params) == AdminEffect(AdminDeleteEffect(t, params).res, t)
    ensures AdminUpdateEffect(t, params, body, now).res.status == 400
    ensures AdminDeleteEffect(t, params).res.status == 400
    ensures ByTypeReply(t, params).status == 400
  {
    assert Dispatch(params, "Invalid loan type").Stop?;
    assert Dispatch(params, "Invalid type").Stop?;
  }

  /**
   * The admin delete removes exactly the addressed record of the picked kind, from the
   * documents and from the natural order, and answers with it; every other record and the
   * other kinds are unchanged, and a missing record is 404 with nothing removed.
   */
  lemma {:induction false} AdminDeleteRemoves(t: Tables, params: map<string, string>)
    requires Dispatch(params, "Invalid type").Go? && IsObjectId(params["id"])
    ensures var kind := DispatchKind(params["type"]).value;
      var id := params["id"];
      var before := TableOf(t, kind);
      var e := AdminDeleteEffect(t, params);
      var after := TableOf(e.tables, kind);
      (id !in before.docs ==> e.res.status == 404 && e.tables == t) &&
      (id in before.docs ==>
        e.res.status == 200 && e.res.body == MessageData(params["type"] + " deleted successfully", WithId(id, before.docs[id])) &&
        after.docs == before.docs - {id} &&
        (forall x :: x in after.order <==> x in before.order && x != id) &&
        (forall other :: other != kind ==> TableOf(e.tables, other) == TableOf(t, other)))
  {
  }

  /**
   * The admin update writes the body's fields as given into the one addressed record of
   * the picked kind: no status gate, no remark, no notification; every other record and
   * the other kinds are unchanged, and a missing record is 404.
   */
  lemma {:induction false} AdminUpdateSets(t: Tables, params: map<string, string>, body: Object, now: int)
    requires Dispatch(params, "Invalid loan type").Go? && IsObjectId(params["id"])
    ensures var kind := DispatchKind(params["type"]).value;
      var id := params["id"];
      var e := AdminUpdateEffect(t, params, body, now);
      var after := TableOf(e.tables, kind);
      (id !in TableOf(t, kind).docs ==> e.res.status == 404 && e.tables == t) &&
      (id in TableOf(t, kind).docs ==>
        e.res.status == 200 && after.order == TableOf(t, kind).order &&
        after.docs.Keys == TableOf(t, kind).docs.Keys &&
        (forall x :: x in after.docs && x != id ==> after.docs[x] == TableOf(t, kind).docs[x]) &&
        (forall k :: k in body && k != "_id" && k != "createdAt" && k != "updatedAt" ==> after.docs[id][k] == body[k]) &&
        (forall k :: k in TableOf(t, kind).docs[id] && k !in body && k != "updatedAt" ==> after.docs[id][k] == TableOf(t, kind).docs[id][k]) &&
        (forall other :: other != kind ==> TableOf(e.tables, other) == TableOf(t, other)))
  {
    var update := map["$set" := Obj(body)];
    assert SetOf(update) == body;
  }

  // ---------------------------------------------------------------- toggleBlockUser

  /** `user.name` inside a template literal; the schema keeps `name` a string. */
  function NameInText(doc: Doc): string {
    if "name" in doc && doc["name"].Str? then doc["name"].s
    else if "name" !in doc then "undefined"
    else "null"
  }

  /** The user with `isBlocked` negated. */
  function Toggled(doc: Doc): (d: Doc)
    ensures "isBlocked" in d && d["isBlocked"] == Bool(!TruthyAt(doc, "isBlocked"))
    ensures forall k :: k != "isBlocked" ==> (k in d <==> k in doc) && (k in doc ==> d[k] == doc[k])
  {
    doc["isBlocked" := Bool(!TruthyAt(doc, "isBlocked"))]
  }

  /** The fields of `doc` among `keys`, as the response's `user` object lists them. */
  function Pick(doc: Doc, keys: set<string>): (r: Object)
    ensures forall k :: k in r <==> k in doc && k in keys
  {
    map k | k in doc && k in keys :: doc[k]
  }

  /**
   * `toggleBlockUser` on the user collection. The save validates the whole user, so a user
   * whose stored role or other enumerated property is not listed (an admin) answers 500
   * and is not changed.
   */
  function ToggleEffect(users: Table, params: map<string, string>, now: int): (e: (Response, Table))
    ensures e.0.headersSent
    ensures e.1.order == users.order && e.1.docs.Keys == users.docs.Keys
  {
    if !Given(params, "id") then (Send(Unsent, 400, Message("User ID is required")), users)
    else
      var id := params["id"];
      if !IsObjectId(id) then (AdminError, users)
      else if id !in users.docs then (Send(Unsent, 404, Message("User not found")), users)
      else if !EnumsValid(Toggled(users.docs[id])) then (AdminError, users)
      else
        var after := ToggledUsers(users, id, now);
        var saved := after.docs[id];
        var blocked := TruthyAt(saved, "isBlocked");
        var shown := Pick(saved, {"name", "mobile", "role", "isBlocked"})["_id" := Str(id)];
        (Send(Unsent, 200, Obj(map[
           "message" := Str("User " + NameInText(saved) + " has been " + (if blocked then "blocked" else "unblocked") + " successfully"),
           "user" := Obj(shown)])),
         after)
  }

  /** The user collection once `toggleBlockUser` has saved user `id`. */
  function ToggledUsers(users: Table, id: Id, now: int): (r: Table)
    requires id in users.docs
    ensures r.order == users.order && r.docs.Keys == users.docs.Keys
    ensures forall x :: x in users.docs && x != id ==> r.docs[x] == users.docs[x]
  {
    Table(users.docs[id := Saved(users.docs[id], Toggled(users.docs[id]), now)], users.order)
  }

  /**
   * `toggleBlockUser` refuses without changing anything: an unknown id is 404, and a user
   * that does not validate, such as an admin, answers 500, since the save fails.
   */
  lemma {:induction false} ToggleRefusals(users: Table, params: map<string, string>, now: int)
    requires Given(params, "id") && IsObjectId(params["id"])
    ensures var id := params["id"];
      var once := ToggleEffect(users, params, now);
      (id !in users.docs ==> once.0.status == 404 && once.1 == users) &&
      (id in users.docs && !EnumsValid(users.docs[id]) ==> once.0 == AdminError && once.1 == users) &&
      (id in users.docs && "role" in users.docs[id] && users.docs[id]["role"] == Str("admin") ==>
         once.0 == AdminError && once.1 == users)
  {
    var id := params["id"];
    if id in users.docs {
      var d := users.docs[id];
      EnumsValidExactly(d, "isBlocked", Bool(!TruthyAt(d, "isBlocked")));
    }
  }

  /**
   * Toggling a user that validates flips `isBlocked` and nothing else but `updatedAt`;
   * toggling twice restores every field but `updatedAt` (`isBlocked` to the boolean it
   * stood for).
   */
  lemma {:induction false} ToggleTwiceRestores(users: Table, params: map<string, string>, now1: int, now2: int)
    requires Given(params, "id") && IsObjectId(params["id"])
    requires params["id"] in users.docs && EnumsValid(users.docs[params["id"]])
    ensures var id := params["id"];
      var d := users.docs[id];
      var once := ToggleEffect(users, params, now1);
      var twice := ToggleEffect(once.1, params, now2);
      once.0.status == 200 &&
      once.1.docs[id]["isBlocked"] == Bool(!TruthyAt(d, "isBlocked")) &&
      (forall x :: x in users.docs && x != id ==> twice.1.docs[x] == users.docs[x]) &&
      twice.1.docs[id]["isBlocked"] == Bool(TruthyAt(d, "isBlocked")) &&
      (forall k :: k != "isBlocked" && k != "updatedAt" && k != "_id" ==>
        (k in twice.1.docs[id] <==> k in d) && (k in d ==> twice.1.docs[id][k] == d[k]))
  {
    var id := params["id"];
    var d := users.docs[id];
    EnumsValidExactly(d, "isBlocked", Bool(!TruthyAt(d, "isBlocked")));
    ToggleSaves(users, params, now1);
    var t1 := ToggledUsers(users, id, now1);
    var s1 := Saved(d, Toggled(d), now1);
    ToggleKeeps(d, now1);
    ToggleKeepsEnums(d, now1);
    EnumsValidExactly(s1, "isBlocked", Bool(!TruthyAt(s1, "isBlocked")));
    ToggleSaves(t1, params, now2);
    ToggleKeeps(s1, now2);
    assert TruthyAt(s1, "isBlocked") == !TruthyAt(d, "isBlocked");
  }

  /** A toggle of a user that validates answers 200 and stores the saved toggle. */
  lemma ToggleSaves(users: Table, params: map<string, string>, now: int)
    requires Given(params, "id") && IsObjectId(params["id"])
    requires params["id"] in users.docs && EnumsValid(Toggled(users.docs[params["id"]]))
    ensures var e := ToggleEffect(users, params, now);
      e.0.status == 200 && e.1 == ToggledUsers(users, params["id"], now)
  {
  }

  /** One saved toggle: `isBlocked` becomes the negated truthiness, and no field but `updatedAt` changes. */
  lemma ToggleKeeps(d: Doc, now: int)
    ensures var s := Saved(d, Toggled(d), now);
      "isBlocked" in s && s["isBlocked"] == Bool(!TruthyAt(d, "isBlocked")) &&
      forall k :: k != "isBlocked" && k != "updatedAt" && k != "_id" ==> (k in s <==> k in d) && (k in d ==> s[k] == d[k])
  {
    var s := Saved(d, Toggled(d), now);
    forall k | k != "isBlocked" && k != "updatedAt" && k != "_id"
      ensures (k in s <==> k in d) && (k in d ==> s[k] == d[k])
    {
      if k != "createdAt" {
        assert k in s <==> k in Toggled(d);
      }
    }
  }

  /** A saved toggle leaves every enumerated property as it was, so a user that validated still does. */
  lemma ToggleKeepsEnums(d: Doc, now: int)
    requires EnumsValid(d)
    ensures EnumsValid(Saved(d, Toggled(d), now))
  {
    ToggleKeeps(d, now);
    var s := Saved(d, Toggled(d), now);
    forall p | p in Enumerated && p in s
      ensures InEnum(s[p], EnumOf(p))
    {
      assert p != "isBlocked" && p != "updatedAt" && p != "_id";
    }
  }

  // ---------------------------------------------------------------- the controller

  /** The admin controller over the three application collections and the users. */
  class AdminPanel {
    const credits: Collection
    const insurances: Collection
    const loans: Collection
    const users: Collection

    constructor (credits: Collection, insurances: Collection, loans: Collection, users: Collection)
      ensures this.credits == credits && this.insurances == insurances && this.loans == loans && this.users == users
    {
      this.credits := credits;
      this.insurances := insurances;
      this.loans := loans;
      this.users := users;
    }

    /** Four separate collections. */
    predicate Distinct() {
      credits != insurances && credits != loans && insurances != loans &&
      users != credits && users != insurances && users != loans
    }

    ghost predicate Valid()
      reads credits, insurances, loans, users
    {
      credits.Valid() && insurances.Valid() && loans.Valid() && users.Valid()
    }

    function Snapshot(): Tables
      reads credits, insurances, loans
    {
      Tables(Table(credits.docs, credits.order), Table(insurances.docs, insurances.order), Table(loans.docs, loans.order))
    }

    function CollectionOf(kind: Kind): (c: Collection)
      ensures c in {credits, insurances, loans}
    {
      match kind
      case Credit => credits
      case Insurance => insurances
      case Loan => loans
    }

    /** `getAllLoans`; `range` is the parsed `startDate`/`endDate` window. */
    method GetAllLoans(query: map<string, string>, range: DateRange) returns (res: Response)
      ensures res == AllLoansReply(Snapshot(), query, range)
    {
      res := AllLoansReply(Snapshot(), query, range);
    }

    /** `getLoanById`. */
    method GetLoanById(params: map<string, string>) returns (res: Response)
      ensures res == ByTypeReply(Snapshot(), params)
    {
      var d := Dispatch(params, "Invalid type");
      if d.Stop? {
        return d.res;
      }
      var c := CollectionOf(d.kind);
      assert TableOf(Snapshot(), d.kind) == Table(c.docs, c.order);
      if !IsObjectId(d.id) {
        return AdminError;
      }
      if d.id !in c.docs {
        return Send(Unsent, 404, Message("Document not found"));
      }
      res := Send(Unsent, 200, MessageData(params["type"] + " fetched successfully", WithId(d.id, c.docs[d.id])));
    }

    /** `updateLoanById`. */
    method UpdateLoanById(params: map<string, string>, body: Object, now: int) returns (res: Response)
      requires Distinct() && Valid()
      modifies credits, insurances, loans
      ensures Valid()
      ensures var e := old(AdminUpdateEffect(Snapshot(), params, body, now)); res == e.res && Snapshot() == e.tables
    {
      var d := Dispatch(params, "Invalid loan type");
      if d.Stop? {
        return d.res;
      }
      var c := CollectionOf(d.kind);
      ghost var before := Snapshot();
      assert TableOf(before, d.kind) == Table(c.docs, c.order);
      if !IsObjectId(d.id) {
        return AdminError;
      }
      if d.id !in c.docs {
        return Send(Unsent, 404, Message("Document not found"));
      }
      c.Update(d.id, map["$set" := Obj(body)], now);
      assert Snapshot() == WithTable(before, d.kind, Table(c.docs, c.order));
      res := Send(Unsent, 200, MessageData("Document updated successfully", WithId(d.id, c.docs[d.id])));
    }

    /** `deleteLoanById`. */
    method DeleteLoanById(params: map<string, string>) returns (res: Response)
      requires Distinct() && Valid()
      modifies credits, insurances, loans
      ensures Valid()
      ensures var e := old(AdminDeleteEffect(Snapshot(), params)); res == e.res && Snapshot() == e.tables
    {
      var d := Dispatch(params, "Invalid type");
      if d.Stop? {
        return d.res;
      }
      var c := CollectionOf(d.kind);
      ghost var before := Snapshot();
      assert TableOf(before, d.kind) == Table(c.docs, c.order);
      if !IsObjectId(d.id) {
        return AdminError;
      }
      if d.id !in c.docs {
        return Send(Unsent, 404, Message("Document not found"));
      }
      var deleted := c.docs[d.id];
      c.Delete(d.id);
      assert Snapshot() == WithTable(before, d.kind, Table(c.docs, c.order));
      res := Send(Unsent, 200, MessageData(params["type"] + " deleted successfully", WithId(d.id, deleted)));
    }

    /** `toggleBlockUser`: `user.isBlocked = !user.isBlocked; await user.save()`. */
    method ToggleBlockUser(params: map<string, string>, now: int) returns (res: Response)
      requires Distinct() && Valid()
      modifies users
      ensures Valid()
      ensures var e := old(ToggleEffect(Table(users.docs, users.order), params, now));
        res == e.0 && users.docs == e.1.docs && users.order == e.1.order
    {
      if !Given(params, "id") {
        return Send(Unsent, 400, Message("User ID is required"));
      }
      var id := params["id"];
      if !IsObjectId(id) {
        return AdminError;
      }
      if id !in users.docs {
        return Send(Unsent, 404, Message("User not found"));
      }
      var user := users.docs[id];
      user := user["isBlocked" := Bool(!TruthyAt(user, "isBlocked"))];
      if !EnumsValid(user) {
        return AdminError;
      }
      users.Save(id, user, now);
      var saved := users.docs[id];
      var blocked := TruthyAt(saved, "isBlocked");
      var shown := Pick(saved, {"name", "mobile", "role", "isBlocked"})["_id" := Str(id)];
      res := Send(Unsent, 200, Obj(map[
        "message" := Str("User " + NameInText(saved) + " has been " + (if blocked then "blocked" else "unblocked") + " successfully"),
        "user" := Obj(shown)]));
    }
  }
}
