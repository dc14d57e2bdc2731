/**
 * The account engine (core/AuthController.js) over the user collection (models/User.js):
 * registration with a first one-time password, password and OTP login, the OTP send
 * throttle, verification, password reset, the caller's own profile, and the role gate.
 * bcrypt and JWT are opaque: a hash, a comparison's verdict and a token arrive as
 * parameters, as do the random OTP, the sender's success and the clock.
 */
module Auth {
  import opened Wrappers
  import opened Json
  import opened Store
  import opened Http
  import opened UserSchema

  /** One issued one-time password. */
  datatype OtpEntry = OtpEntry(code: string, createdAt: int)

  /**
   * A user account. The schema-typed fields the engine reads and writes are fields of their
   * own; every other property (`mobile`, `name`, `email`, `status`, `wallet`, …) lives in
   * `profile`. A `role` of `None` is a stored `null`.
   */
  datatype Account = Account(
    profile: Object,
    password: Option<string>,
    role: Option<string>,
    isVerified: bool,
    isBlocked: bool,
    otp: seq<OtpEntry>)

  /** The properties `Account` keeps outside `profile`. */
  const Reserved: set<string> := {"_id", "password", "role", "isVerified", "isBlocked", "otp"}

  /** The properties the engine deletes from the user objects it answers with. */
  const Secret: set<string> := {"password", "otp", "isBlocked", "isVerified"}

  /**
   * The engine's settings after the constructor's defaults: `loginType || 'password'`,
   * `otpField || 'mobile'`, `otpLimit || 5`; `hasSender` says whether `config.sendOtp`
   * was given.
   */
  datatype AuthConfig = AuthConfig(loginType: string, otpField: string, otpLimit: int, hasSender: bool)

  function NewConfig(loginType: string, otpField: string, otpLimit: int, hasSender: bool): (c: AuthConfig)
    ensures c.loginType == (if loginType == "" then "password" else loginType)
    ensures c.otpField == (if otpField == "" then "mobile" else otpField)
    ensures c.otpLimit != 0 && (otpLimit != 0 ==> c.otpLimit == otpLimit)
    ensures c.hasSender == hasSender
  {
    AuthConfig(if loginType == "" then "password" else loginType,
               if otpField == "" then "mobile" else otpField,
               if otpLimit == 0 then 5 else otpLimit,
               hasSender)
  }

  /** controller/auth.js: password login on `mobile`, no OTP sender. */
  const PasswordAuth := NewConfig("password", "mobile", 0, false)

  /** controller/appAuth.js: OTP login on `mobile`, no OTP sender. */
  const OtpAuth := NewConfig("otp", "mobile", 0, false)

  /** The code an issue stores: the random one when a sender is configured, else the fixed `"123456"`. */
  function IssuedCode(cfg: AuthConfig, random: string): (code: string)
    ensures cfg.hasSender ==> code == random
    ensures !cfg.hasSender ==> code == "123456"
  {
    if cfg.hasSender then random else "123456"
  }

  /** A response carrying `{ message }` only. */
  function Reply(status: int, m: string): (r: Response)
    ensures r.headersSent && r.status == status && r.body == Message(m)
  {
    Send(Unsent, status, Message(m))
  }

  /** The 400 for a body without a truthy identifier. */
  function FieldRequired(cfg: AuthConfig): Response {
    Reply(400, cfg.otpField + " is required")
  }

  // ---------------------------------------------------------------- the user collection

  /** Every `_id` is listed once in natural order, and only stored ones are listed. */
  ghost predicate Consistent(users: map<Id, Account>, order: seq<Id>) {
    (forall i, j :: 0 <= i < j < |order| ==> order[i] != order[j]) &&
    (forall id :: id in users <==> id in order)
  }

  /** The account's `field` equals `v`. */
  predicate Holds(a: Account, field: string, v: Json) {
    field in a.profile && a.profile[field] == v
  }

  /** `User.findOne({ [field]: v })`: the first match in natural order. */
  function FindBy(users: map<Id, Account>, order: seq<Id>, field: string, v: Json): (r: Option<Id>)
    ensures r.Some? ==> r.value in order && r.value in users && Holds(users[r.value], field, v)
    ensures r.Some? ==>
      exists i :: 0 <= i < |order| && order[i] == r.value &&
        (forall j :: 0 <= j < i ==> !(order[j] in users && Holds(users[order[j]], field, v)))
    ensures r.None? ==> forall id :: id in order && id in users ==> !Holds(users[id], field, v)
    decreases |order|
  {
    if order == [] then None
    else if order[0] in users && Holds(users[order[0]], field, v) then Some(order[0])
    else
      var r := FindBy(users, order[1..], field, v);
      if r.Some? then
        var i :| 0 <= i < |order| - 1 && order[1..][i] == r.value &&
          (forall j :: 0 <= j < i ==> !(order[1..][j] in users && Holds(users[order[1..][j]], field, v)));
        assert order[i + 1] == r.value;
        assert forall j :: 1 <= j < i + 1 ==> order[j] == order[1..][j - 1];
        r
      else r
  }

  /** A lookup over an order with one more account at the end finds an earlier match first, else that account. */
  lemma {:induction false} FindAppended(users: map<Id, Account>, order: seq<Id>, n: Id, a: Account, field: string, v: Json)
    requires n !in users && n !in order
    ensures FindBy(users[n := a], order + [n], field, v) ==
      (if FindBy(users, order, field, v).Some? then FindBy(users, order, field, v)
       else if Holds(a, field, v) then Some(n) else None)
    decreases |order|
  {
    if order == [] {
      assert order + [n] == [n];
      assert ([n])[1..] == [];
    } else {
      assert (order + [n])[0] == order[0];
      assert (order + [n])[1..] == order[1..] + [n];
      FindAppended(users, order[1..], n, a, field, v);
    }
  }

  /** A lookup is unchanged by rewriting an account without touching its profile. */
  lemma {:induction false} FindKeepsProfiles(users: map<Id, Account>, order: seq<Id>, x: Id, a: Account, field: string, v: Json)
    requires x in users && a.profile == users[x].profile
    ensures FindBy(users[x := a], order, field, v) == FindBy(users, order, field, v)
    decreases |order|
  {
    if order != [] {
      FindKeepsProfiles(users, order[1..], x, a, field, v);
    }
  }

  /** The properties of a new account taken from the request body. */
  function Profile(body: Object): (p: Object)
    ensures forall k :: k in p <==> k in body && k !in Reserved
    ensures forall k :: k in p ==> p[k] == body[k]
  {
    body - Reserved
  }

  /** A string-typed value as stored: a string as it is, `null` (or anything else) as none. */
  function StringOrNull(v: Json): (r: Option<string>)
    ensures v.Str? <==> r.Some?
    ensures r.Some? ==> Str(r.value) == v
  {
    if v.Str? then Some(v.s) else None
  }

  /** A stored role as the documents show it: the string, or `null`. */
  function RoleJson(role: Option<string>): (v: Json)
    ensures InEnum(v, Roles) <==> role.None? || role.value in Roles
    ensures StringOrNull(v) == role
  {
    if role.Some? then Str(role.value) else Null
  }

  /**
   * The `role` a new account is built with: the schema default `'customer'` fills a body
   * without one, and only then (a default fills an undefined path, so a `null` role is
   * stored as null); a role the enum accepts is stored as given.
   */
  function RoleOf(body: Object): (r: Option<string>)
    ensures "role" !in body ==> r == Some("customer")
    ensures "role" in body && InEnum(body["role"], Roles) ==> RoleJson(r) == body["role"]
  {
    if "role" !in body then Some("customer") else StringOrNull(body["role"])
  }

  /**
   * The properties of a new account: the body's own, plus the schema defaults
   * `status: 'offline'` and `wallet: 0` where the body has no such property.
   */
  function NewProfile(body: Object): (p: Object)
    ensures forall k :: k in body && k !in Reserved ==> k in p && p[k] == body[k]
    ensures "status" !in body ==> "status" in p && p["status"] == Str("offline")
    ensures "wallet" !in body ==> "wallet" in p && p["wallet"] == Num(0)
    ensures forall k :: k in p ==> (k in body && k !in Reserved) || k == "status" || k == "wallet"
    ensures EnumsValid(p) <==> EnumsValid(Profile(body))
  {
    var withStatus := if "status" in body then Profile(body) else Profile(body)["status" := Str("offline")];
    var p := if "wallet" in body then withStatus else withStatus["wallet" := Num(0)];
    assert forall q :: q in Enumerated && q in p && q != "status" ==> q in Profile(body) && p[q] == Profile(body)[q];
    p
  }

  /** `save()` of an account passes validation: its role and its other enumerated properties hold listed values. */
  predicate Savable(a: Account) {
    InEnum(RoleJson(a.role), Roles) && EnumsValid(a.profile)
  }

  /**
   * `new User({ ...req.body, password, isVerified: false, otp })` and its `save()`: `None`
   * when the role or another enumerated property is not listed, or `isBlocked` does not
   * cast to a boolean (it defaults to false).
   */
  function Fresh(body: Object, password: Option<string>, otp: seq<OtpEntry>): (r: Option<Account>)
    ensures r.Some? ==> (r.value.profile == NewProfile(body) && r.value.password == password &&
                         r.value.role == RoleOf(body) && !r.value.isVerified && r.value.otp == otp && Savable(r.value) &&
                         r.value.isBlocked == ("isBlocked" in body && CastBool(body["isBlocked"]) == Some(true)))
    ensures r.None? <==> ("role" in body && !InEnum(body["role"], Roles)) || !EnumsValid(Profile(body)) ||
                         ("isBlocked" in body && CastBool(body["isBlocked"]).None?)
  {
    if "role" in body && !InEnum(body["role"], Roles) then None
    else if !EnumsValid(NewProfile(body)) then None
    else if "isBlocked" in body && CastBool(body["isBlocked"]).None? then None
    else
      var blocked := "isBlocked" in body && CastBool(body["isBlocked"]).value;
      Some(Account(NewProfile(body), password, RoleOf(body), false, blocked, otp))
  }

  /** The `password` of a new account built from the body by `sendOtp`: a string is kept unhashed. */
  function BodyPassword(body: Object): (r: Option<string>)
    ensures "password" in body && body["password"].Str? <==> r.Some?
    ensures r.Some? ==> body["password"] == Str(r.value)
  {
    if "password" in body then StringOrNull(body["password"]) else None
  }

  /** The user object `register`, `login`, `getUser` and `updateUser` answer with: the four secrets deleted. */
  function Shown(id: Id, a: Account): (o: Object)
    ensures forall k :: k in Secret ==> k !in o
    ensures "_id" in o && o["_id"] == Str(id) && "role" in o && o["role"] == RoleJson(a.role)
    ensures forall k :: k in a.profile && k !in Reserved ==> k in o && o[k] == a.profile[k]
  {
    (a.profile - Reserved)["_id" := Str(id)]["role" := RoleJson(a.role)]
  }

  /** The user object `otpLogin` answers with: only `otp` and `password` deleted. */
  function OtpShown(id: Id, a: Account): (o: Object)
    ensures "otp" !in o && "password" !in o
    ensures "isVerified" in o && o["isVerified"] == Bool(a.isVerified)
    ensures "isBlocked" in o && o["isBlocked"] == Bool(a.isBlocked)
  {
    Shown(id, a)["isVerified" := Bool(a.isVerified)]["isBlocked" := Bool(a.isBlocked)]
  }

  function OtpJson(e: OtpEntry): Json {
    Obj(map["otp" := Str(e.code), "createdAt" := Num(e.createdAt)])
  }

  /** The stored code list as the documents `findOneAndUpdate` returns show it. */
  function OtpList(otp: seq<OtpEntry>): (js: seq<Json>)
    ensures |js| == |otp|
    ensures forall i :: 0 <= i < |otp| ==> js[i] == OtpJson(otp[i])
  {
    if otp == [] then [] else [OtpJson(otp[0])] + OtpList(otp[1..])
  }

  /** The whole stored document, as `findOneAndUpdate` returns it. */
  function Full(id: Id, a: Account): (o: Object)
    ensures "otp" in o && o["otp"] == Arr(OtpList(a.otp))
    ensures a.password.Some? ==> "password" in o && o["password"] == Str(a.password.value)
  {
    var base := OtpShown(id, a)["otp" := Arr(OtpList(a.otp))];
    if a.password.Some? then base["password" := Str(a.password.value)] else base
  }

  /** `{ message, user }`. */
  function UserReply(status: int, m: string, user: Object): (r: Response)
    ensures r.status == status && r.body.Obj? && "user" in r.body.fields && r.body.fields["user"] == Obj(user)
  {
    Send(Unsent, status, Obj(map["message" := Str(m), "user" := Obj(user)]))
  }

  /** The user object a reply carries, if any. */
  function UserOf(res: Response): Option<Object> {
    if res.body.Obj? && "user" in res.body.fields && res.body.fields["user"].Obj? then Some(res.body.fields["user"].fields) else None
  }

  /** What a request does: the answer and the collection afterwards. */
  datatype Effect = Effect(res: Response, users: map<Id, Account>, order: seq<Id>)

  function Last(otp: seq<OtpEntry>): OtpEntry
    requires otp != []
  {
    otp[|otp| - 1]
  }

  /** `user.otp[user.otp.length - 1].otp === req.body.otp`. */
  predicate LastMatches(a: Account, body: Object)
    requires a.otp != []
  {
    "otp" in body && body["otp"] == Str(Last(a.otp).code)
  }

  // ---------------------------------------------------------------- register

  /**
   * `register`. The identifier must be truthy; an existing account always answers 400, and
   * an unverified one is deleted first; a missing or non-string password makes bcrypt
   * throw; a role loosely equal to `"admin"` or `"Admin"` is refused (an array `["admin"]`
   * too); otherwise the account is saved
   * unverified with one OTP before the sender runs.
   */
  function RegisterEffect(cfg: AuthConfig, users: map<Id, Account>, order: seq<Id>, body: Object,
                          hashed: string, random: string, sendOk: bool, newId: Id, now: int): Effect
  {
    if !TruthyAt(body, cfg.otpField) then Effect(FieldRequired(cfg), users, order)
    else
      var found := FindBy(users, order, cfg.otpField, body[cfg.otpField]);
      if found.Some? then
        var x := found.value;
        if !users[x].isVerified then Effect(Reply(400, "User already exists"), users - {x}, Erase(order, x))
        else Effect(Reply(400, "User already exists"), users, order)
      else if !("password" in body && body["password"].Str?) then Effect(Reply(500, "Server error"), users, order)
      else if "role" in body && (LooselyEquals(body["role"], "admin") || LooselyEquals(body["role"], "Admin")) then
        Effect(Reply(400, "Admin registration is not allowed"), users, order)
      else
        var a := Fresh(body, Some(hashed), [OtpEntry(IssuedCode(cfg, random), now)]);
        if a.None? || newId in users then Effect(Reply(500, "Server error"), users, order)
        else
          var users' := users[newId := a.value];
          var order' := order + [newId];
          if cfg.hasSender && !sendOk then Effect(Reply(500, "Error sending OTP"), users', order')
          else Effect(UserReply(201, "User registered", Shown(newId, a.value)), users', order')
  }

  /**
   * The register rules: a missing identifier answers 400 and changes nothing; an existing
   * identifier always answers 400 "User already exists", deleting the account first exactly
   * when it was unverified; an admin role is refused with nothing stored; a registration
   * that stores an account stores it unverified with exactly one OTP, the fixed code when
   * no sender is configured, and that account is the one its identifier now finds.
   */
  lemma {:induction false} RegisterRules(cfg: AuthConfig, users: map<Id, Account>, order: seq<Id>, body: Object,
                                         hashed: string, random: string, sendOk: bool, newId: Id, now: int)
    requires Consistent(users, order)
    ensures var e := RegisterEffect(cfg, users, order, body, hashed, random, sendOk, newId, now);
      Consistent(e.users, e.order) &&
      (!TruthyAt(body, cfg.otpField) ==> e.res.status == 400 && e.users == users && e.order == order) &&
      (TruthyAt(body, cfg.otpField) ==>
        var found := FindBy(users, order, cfg.otpField, body[cfg.otpField]);
        (found.Some? ==>
           (e.res == Reply(400, "User already exists") &&
            (users[found.value].isVerified ==> e.users == users && e.order == order) &&
            (!users[found.value].isVerified ==> e.users == users - {found.value} && found.value !in e.order))) &&
        (found.None? && "password" in body && body["password"].Str? && "role" in body &&
         (LooselyEquals(body["role"], "admin") || LooselyEquals(body["role"], "Admin")) ==>
           e.res == Reply(400, "Admin registration is not allowed") && e.users == users) &&
        (found.None? && e.users != users ==>
           e.order == order + [newId] && newId in e.users && !e.users[newId].isVerified &&
           e.users[newId].otp == [OtpEntry(IssuedCode(cfg, random), now)] &&
           (cfg.otpField !in Reserved ==> FindBy(e.users, e.order, cfg.otpField, body[cfg.otpField]) == Some(newId))))
  {
    var e := RegisterEffect(cfg, users, order, body, hashed, random, sendOk, newId, now);
    if TruthyAt(body, cfg.otpField) {
      var v := body[cfg.otpField];
      var found := FindBy(users, order, cfg.otpField, v);
      if found.Some? {
        var x := found.value;
        if !users[x].isVerified {
          assert e.users == users - {x} && e.order == Erase(order, x);
          forall id ensures id in e.users <==> id in e.order {}
        }
      } else if e.users != users {
        var a := Fresh(body, Some(hashed), [OtpEntry(IssuedCode(cfg, random), now)]);
        RegisterStores(cfg, users, order, body, hashed, random, sendOk, newId, now);
        if cfg.otpField !in Reserved {
          assert cfg.otpField in Profile(body);
          assert Holds(a.value, cfg.otpField, v);
        }
        FindAppended(users, order, newId, a.value, cfg.otpField, v);
        AppendKeepsConsistent(users, order, newId, a.value);
      }
    }
  }

  /** A registration that changes the accounts adds the fresh account under `newId`, and nothing else. */
  lemma RegisterStores(cfg: AuthConfig, users: map<Id, Account>, order: seq<Id>, body: Object,
                       hashed: string, random: string, sendOk: bool, newId: Id, now: int)
    requires TruthyAt(body, cfg.otpField) && FindBy(users, order, cfg.otpField, body[cfg.otpField]).None?
    requires RegisterEffect(cfg, users, order, body, hashed, random, sendOk, newId, now).users != users
    ensures var e := RegisterEffect(cfg, users, order, body, hashed, random, sendOk, newId, now);
      var a := Fresh(body, Some(hashed), [OtpEntry(IssuedCode(cfg, random), now)]);
      a.Some? && newId !in users && e.users == users[newId := a.value] && e.order == order + [newId]
  {
  }

  // ---------------------------------------------------------------- login

  /**
   * `login` with the password login type: the checks run in this order, identifier, account,
   * verified, not blocked, password. A missing password, or an account without one, makes
   * bcrypt throw; `matches` is bcrypt's verdict otherwise.
   */
  function PasswordLoginReply(cfg: AuthConfig, users: map<Id, Account>, order: seq<Id>, body: Object,
                              matches: bool, token: string): Response
  {
    if !TruthyAt(body, cfg.otpField) then FieldRequired(cfg)
    else match FindBy(users, order, cfg.otpField, body[cfg.otpField])
      case None => Reply(404, "User not found")
      case Some(id) =>
        var a := users[id];
        if !a.isVerified then Reply(401, "User not verified")
        else if a.isBlocked then Reply(401, "User is blocked")
        else if !("password" in body && body["password"].Str?) || a.password.None? then Reply(500, "Server error")
        else if !matches then Reply(401, "Invalid password")
        else Send(Unsent, 200, Obj(map["message" := Str("Login successful"), "user" := Obj(Shown(id, a)), "token" := Str(token)]))
  }

  /**
   * `otpLogin`: only an admin account must be verified; the body's `otp` must equal the
   * last issued code (an account with no code makes the lookup throw). The list is left
   * as it is, so the same code logs in again.
   */
  function OtpLoginReply(cfg: AuthConfig, users: map<Id, Account>, order: seq<Id>, body: Object, token: string): Response
  {
    if !TruthyAt(body, cfg.otpField) then FieldRequired(cfg)
    else match FindBy(users, order, cfg.otpField, body[cfg.otpField])
      case None => Reply(404, "User not found")
      case Some(id) =>
        var a := users[id];
        if a.role == Some("admin") && !a.isVerified then Reply(401, "User not verified")
        else if a.isBlocked then Reply(401, "User is blocked")
        else if a.otp == [] then Reply(500, "Server error")
        else if !LastMatches(a, body) then Reply(401, "Invalid OTP")
        else Send(Unsent, 200, Obj(map["message" := Str("OTP login successful"), "token" := Str(token), "user" := Obj(OtpShown(id, a))]))
  }

  /** `login`: the OTP login type hands the request to `otpLogin`. */
  function LoginReply(cfg: AuthConfig, users: map<Id, Account>, order: seq<Id>, body: Object,
                      matches: bool, token: string): (r: Response)
    ensures cfg.loginType == "otp" ==> r == OtpLoginReply(cfg, users, order, body, token)
    ensures cfg.loginType != "otp" ==> r == PasswordLoginReply(cfg, users, order, body, matches, token)
  {
    if cfg.loginType == "otp" then OtpLoginReply(cfg, users, order, body, token)
    else PasswordLoginReply(cfg, users, order, body, matches, token)
  }

  /**
   * The password login check order: a found account that is unverified answers "User not
   * verified" whatever else holds, a verified but blocked one "User is blocked" whatever the
   * password; 200 comes only for a verified, unblocked account whose password bcrypt
   * accepts, and its user object carries none of the secrets.
   */
  lemma {:induction false} PasswordLoginOrder(cfg: AuthConfig, users: map<Id, Account>, order: seq<Id>, body: Object,
                                              matches: bool, token: string)
    requires TruthyAt(body, cfg.otpField)
    ensures var r := PasswordLoginReply(cfg, users, order, body, matches, token);
      var found := FindBy(users, order, cfg.otpField, body[cfg.otpField]);
      (found.None? ==> r == Reply(404, "User not found")) &&
      (found.Some? && !users[found.value].isVerified ==> r == Reply(401, "User not verified")) &&
      (found.Some? && users[found.value].isVerified && users[found.value].isBlocked ==> r == Reply(401, "User is blocked")) &&
      (r.status == 200 <==>
         (found.Some? && users[found.value].isVerified && !users[found.value].isBlocked &&
          "password" in body && body["password"].Str? && users[found.value].password.Some? && matches)) &&
      (r.status == 200 ==> UserOf(r) == Some(Shown(found.value, users[found.value])))
  {
  }

  /**
   * `otpLogin` demands verification of admins only: an unverified, unblocked non-admin
   * whose last code matches logs in, while an unverified admin is refused; the check is
   * always against the last code.
   */
  lemma {:induction false} OtpLoginAdminsOnly(cfg: AuthConfig, users: map<Id, Account>, order: seq<Id>, body: Object, token: string)
    requires TruthyAt(body, cfg.otpField)
    requires FindBy(users, order, cfg.otpField, body[cfg.otpField]).Some?
    ensures var id := FindBy(users, order, cfg.otpField, body[cfg.otpField]).value;
      var a := users[id];
      var r := OtpLoginReply(cfg, users, order, body, token);
      (a.role == Some("admin") && !a.isVerified ==> r == Reply(401, "User not verified")) &&
      (a.role != Some("admin") && !a.isBlocked && a.otp != [] && LastMatches(a, body) ==> r.status == 200) &&
      (r.status == 200 ==> a.otp != [] && LastMatches(a, body) && !a.isBlocked && (a.isVerified || a.role != Some("admin")))
  {
  }

  // ---------------------------------------------------------------- sendOtp

  /** The codes issued in the last minute: `createdAt > now - 60 s`. */
  function Recent(otp: seq<OtpEntry>, now: int): (r: seq<OtpEntry>)
    ensures |r| <= |otp|
    ensures forall e :: e in r <==> e in otp && e.createdAt > now - 60000
    decreases |otp|
  {
    if otp == [] then []
    else
      var init := Recent(otp[..|otp| - 1], now);
      var last := otp[|otp| - 1];
      assert otp == otp[..|otp| - 1] + [last];
      if last.createdAt > now - 60000 then init + [last] else init
  }

  /** Codes listed oldest first, as the engine appends them. */
  ghost predicate Chronological(otp: seq<OtpEntry>) {
    forall i, j :: 0 <= i < j < |otp| ==> otp[i].createdAt <= otp[j].createdAt
  }

  datatype Throttle = Limited | Room(kept: seq<OtpEntry>)

  /**
   * The throttle: a list holding exactly `limit` codes, all from the last minute, is
   * refused; a list at the limit otherwise loses its first (limit − recent) codes; any
   * other list is kept as it is.
   */
  function Throttled(otp: seq<OtpEntry>, limit: int, now: int): (t: Throttle)
    ensures t.Limited? <==> |otp| == limit && |Recent(otp, now)| == limit
    ensures t.Room? ==> |t.kept| <= |otp| && t.kept == otp[|otp| - |t.kept|..]
    ensures t.Room? && |otp| <= limit ==> |t.kept| < limit
    ensures t.Room? && |otp| != limit ==> t.kept == otp
  {
    if |otp| == limit then
      var recent := Recent(otp, now);
      if |recent| == limit then Limited
      else Room(otp[limit - |recent|..])
    else Room(otp)
  }

  /** In a chronological list the recent codes are a suffix. */
  lemma {:induction false} RecentSuffix(otp: seq<OtpEntry>, now: int)
    requires Chronological(otp)
    ensures Recent(otp, now) == otp[|otp| - |Recent(otp, now)|..]
    decreases |otp|
  {
    if otp != [] {
      if otp[|otp| - 1].createdAt > now - 60000 {
        ChronologicalSlice(otp, 0, |otp| - 1);
        RecentSuffix(otp[..|otp| - 1], now);
        RecentLastKept(otp, now);
      } else {
        RecentLastOld(otp, now);
      }
    }
  }

  /** A recent last code extends the recent suffix of the codes before it. */
  lemma RecentLastKept(otp: seq<OtpEntry>, now: int)
    requires otp != [] && otp[|otp| - 1].createdAt > now - 60000
    requires var init := otp[..|otp| - 1]; Recent(init, now) == init[|init| - |Recent(init, now)|..]
    ensures Recent(otp, now) == otp[|otp| - |Recent(otp, now)|..]
  {
    var r := Recent(otp[..|otp| - 1], now);
    assert Recent(otp, now) == r + [otp[|otp| - 1]];
    SuffixThroughLast(otp, r);
  }

  /** A suffix of all but the last element, followed by the last element, is a suffix of the whole. */
  lemma SuffixThroughLast(otp: seq<OtpEntry>, r: seq<OtpEntry>)
    requires otp != [] && |r| < |otp|
    requires r == otp[..|otp| - 1][|otp| - 1 - |r|..]
    ensures r + [otp[|otp| - 1]] == otp[|otp| - 1 - |r|..]
  {
  }

  /** When the last code of a chronological list is older than a minute, none is recent. */
  lemma RecentLastOld(otp: seq<OtpEntry>, now: int)
    requires otp != [] && Chronological(otp) && otp[|otp| - 1].createdAt <= now - 60000
    ensures Recent(otp, now) == []
  {
    var init := otp[..|otp| - 1];
    var last := otp[|otp| - 1];
    assert otp == init + [last];
    assert Recent(otp, now) == Recent(init, now);
    OlderThanLast(init, last, now);
  }

  /** Any slice of a chronological list is chronological. */
  lemma ChronologicalSlice(otp: seq<OtpEntry>, from: nat, to: nat)
    requires Chronological(otp) && from <= to <= |otp|
    ensures Chronological(otp[from..to])
  {
    var s := otp[from..to];
    forall i, j | 0 <= i < j < |s| ensures s[i].createdAt <= s[j].createdAt {
      assert s[i] == otp[from + i] && s[j] == otp[from + j];
    }
  }

  /** A code no older than every code of a chronological list can follow it. */
  lemma ChronologicalAppend(otp: seq<OtpEntry>, e: OtpEntry)
    requires Chronological(otp)
    requires forall k :: 0 <= k < |otp| ==> otp[k].createdAt <= e.createdAt
    ensures Chronological(otp + [e])
  {
    var s := otp + [e];
    forall i, j | 0 <= i < j < |s| ensures s[i].createdAt <= s[j].createdAt {
      assert s[i] == otp[i];
      if j < |otp| { assert s[j] == otp[j]; }
    }
  }

  lemma NoYoungerThanLast(otp: seq<OtpEntry>, i: int)
    requires Chronological(otp) && 0 <= i < |otp|
    ensures otp[i].createdAt <= otp[|otp| - 1].createdAt
  {
  }

  /** Codes no younger than a code older than a minute are not recent either. */
  lemma {:induction false} OlderThanLast(init: seq<OtpEntry>, last: OtpEntry, now: int)
    requires Chronological(init + [last]) && last.createdAt <= now - 60000
    ensures Recent(init, now) == []
  {
    var r := Recent(init, now);
    if r != [] {
      var e := r[0];
      assert e in r;
      assert e in init;
      var i :| 0 <= i < |init| && init[i] == e;
      NoYoungerThanLast(init + [last], i);
      assert false;
    }
  }

  /** On a chronological list, trimming at the limit drops exactly the codes older than a minute. */
  lemma {:induction false} TrimKeepsRecent(otp: seq<OtpEntry>, limit: int, now: int)
    requires Chronological(otp) && |otp| == limit
    requires Throttled(otp, limit, now).Room?
    ensures Throttled(otp, limit, now).kept == Recent(otp, now)
  {
    RecentSuffix(otp, now);
  }

  /**
   * `sendOtp`: with the OTP login type an unknown identifier gets a fresh account (saved
   * only with the new code, and only if it validates); the throttle runs first, the sender
   * next, then the code is appended and the account saved, which fails for an account
   * whose stored properties do not validate (an admin).
   */
  function SendOtpEffect(cfg: AuthConfig, users: map<Id, Account>, order: seq<Id>, body: Object,
                         random: string, sendOk: bool, newId: Id, now: int): Effect
  {
    if !TruthyAt(body, cfg.otpField) then Effect(FieldRequired(cfg), users, order)
    else
      var found := FindBy(users, order, cfg.otpField, body[cfg.otpField]);
      if found.None? && cfg.loginType != "otp" then Effect(Reply(404, "User not found"), users, order)
      else
        var current := if found.Some? then users[found.value].otp else [];
        match Throttled(current, cfg.otpLimit, now)
        case Limited => Effect(Reply(429, "OTP limit exceeded. Please try again later."), users, order)
        case Room(kept) =>
          if cfg.hasSender && !sendOk then Effect(Reply(500, "Error sending OTP"), users, order)
          else
            var otp := kept + [OtpEntry(IssuedCode(cfg, random), now)];
            if found.Some? then
              if !Savable(users[found.value]) then Effect(Reply(500, "Error sending OTP"), users, order)
              else Effect(Reply(200, "OTP sent successfully"), users[found.value := users[found.value].(otp := otp)], order)
            else
              var a := Fresh(body, BodyPassword(body), []);
              if a.None? || newId in users then Effect(Reply(500, "Error sending OTP"), users, order)
              else Effect(Reply(200, "OTP sent successfully"), users[newId := a.value.(otp := otp)], order + [newId])
  }

  /**
   * The send throttle on an existing account: 429 with nothing changed exactly when its
   * list holds `otpLimit` codes, all from the last minute.
   */
  lemma {:induction false} SendOtpLimited(cfg: AuthConfig, users: map<Id, Account>, order: seq<Id>, body: Object,
                                          random: string, sendOk: bool, newId: Id, now: int)
    requires TruthyAt(body, cfg.otpField)
    requires FindBy(users, order, cfg.otpField, body[cfg.otpField]).Some?
    ensures var before := users[FindBy(users, order, cfg.otpField, body[cfg.otpField]).value].otp;
      var e := SendOtpEffect(cfg, users, order, body, random, sendOk, newId, now);
      (e.res.status == 429 <==> |before| == cfg.otpLimit && |Recent(before, now)| == cfg.otpLimit) &&
      (e.res.status == 429 ==> e.users == users && e.order == order)
  {
    var id := FindBy(users, order, cfg.otpField, body[cfg.otpField]).value;
    var t := Throttled(users[id].otp, cfg.otpLimit, now);
    var e := SendOtpEffect(cfg, users, order, body, random, sendOk, newId, now);
    if t.Limited? {
      assert e == Effect(Reply(429, "OTP limit exceeded. Please try again later."), users, order);
    } else {
      assert e.res.status != 429;
    }
  }

  /**
   * A code sent to an existing account changes only that account's list; its last element
   * is the new code (the fixed one without a sender), a list within the limit stays within
   * it, and a chronological list stays chronological.
   */
  lemma {:induction false} SendOtpAppends(cfg: AuthConfig, users: map<Id, Account>, order: seq<Id>, body: Object,
                                          random: string, sendOk: bool, newId: Id, now: int)
    requires TruthyAt(body, cfg.otpField)
    requires FindBy(users, order, cfg.otpField, body[cfg.otpField]).Some?
    requires SendOtpEffect(cfg, users, order, body, random, sendOk, newId, now).res.status == 200
    ensures var id := FindBy(users, order, cfg.otpField, body[cfg.otpField]).value;
      var before := users[id].otp;
      var e := SendOtpEffect(cfg, users, order, body, random, sendOk, newId, now);
      e.order == order && e.users == users[id := users[id].(otp := e.users[id].otp)] &&
      var after := e.users[id].otp;
      after != [] && Last(after) == OtpEntry(IssuedCode(cfg, random), now) &&
      (|before| <= cfg.otpLimit ==> |after| <= cfg.otpLimit) &&
      (Chronological(before) && (forall k :: 0 <= k < |before| ==> before[k].createdAt <= now) ==> Chronological(after))
  {
    var id := FindBy(users, order, cfg.otpField, body[cfg.otpField]).value;
    SendOtpToAccount(cfg, users, order, body, random, sendOk, newId, now);
    ThrottledAppend(users[id].otp, cfg.otpLimit, now, OtpEntry(IssuedCode(cfg, random), now));
  }

  /** A successful send to an existing account stores the throttled list plus the new code on that account only. */
  lemma SendOtpToAccount(cfg: AuthConfig, users: map<Id, Account>, order: seq<Id>, body: Object,
                         random: string, sendOk: bool, newId: Id, now: int)
    requires TruthyAt(body, cfg.otpField)
    requires FindBy(users, order, cfg.otpField, body[cfg.otpField]).Some?
    requires SendOtpEffect(cfg, users, order, body, random, sendOk, newId, now).res.status == 200
    ensures var id := FindBy(users, order, cfg.otpField, body[cfg.otpField]).value;
      var t := Throttled(users[id].otp, cfg.otpLimit, now);
      t.Room? &&
      SendOtpEffect(cfg, users, order, body, random, sendOk, newId, now) ==
        Effect(Reply(200, "OTP sent successfully"),
               users[id := users[id].(otp := t.kept + [OtpEntry(IssuedCode(cfg, random), now)])], order)
  {
    var id := FindBy(users, order, cfg.otpField, body[cfg.otpField]).value;
    var t := Throttled(users[id].otp, cfg.otpLimit, now);
    assert t.Room? && !(cfg.hasSender && !sendOk) && Savable(users[id]);
  }

  /** Appending a code after the throttle keeps a list within the limit, and keeps a list chronological if the code is no older. */
  lemma {:induction false} ThrottledAppend(before: seq<OtpEntry>, limit: int, now: int, e: OtpEntry)
    requires Throttled(before, limit, now).Room?
    ensures var after := Throttled(before, limit, now).kept + [e];
      (|before| <= limit ==> |after| <= limit) &&
      (Chronological(before) && (forall k :: 0 <= k < |before| ==> before[k].createdAt <= e.createdAt) ==> Chronological(after))
  {
    var kept := Throttled(before, limit, now).kept;
    if Chronological(before) && (forall k :: 0 <= k < |before| ==> before[k].createdAt <= e.createdAt) {
      var off := |before| - |kept|;
      ChronologicalSlice(before, off, |before|);
      assert before[off..|before|] == kept;
      forall k | 0 <= k < |kept| ensures kept[k].createdAt <= e.createdAt {
        assert kept[k] == before[off + k];
      }
      ChronologicalAppend(kept, e);
    }
  }

  /**
   * With the OTP login type an unknown identifier that validates gets a fresh account
   * holding only the new code, the body's properties with the schema defaults, its role,
   * and a body `password` as sent, unhashed.
   */
  lemma {:induction false} SendOtpCreates(cfg: AuthConfig, users: map<Id, Account>, order: seq<Id>, body: Object,
                                          random: string, sendOk: bool, newId: Id, now: int)
    requires Consistent(users, order)
    requires TruthyAt(body, cfg.otpField) && cfg.otpLimit != 0
    requires FindBy(users, order, cfg.otpField, body[cfg.otpField]).None?
    ensures var e := SendOtpEffect(cfg, users, order, body, random, sendOk, newId, now);
      Consistent(e.users, e.order) &&
      (cfg.loginType != "otp" ==> e.res == Reply(404, "User not found") && e.users == users) &&
      (cfg.loginType == "otp" && (!cfg.hasSender || sendOk) && Fresh(body, BodyPassword(body), []).Some? && newId !in users ==>
        e.res.status == 200 && e.order == order + [newId] &&
        e.users[newId] == Fresh(body, BodyPassword(body), []).value.(otp := [OtpEntry(IssuedCode(cfg, random), now)]) &&
        e.users[newId].profile == NewProfile(body) && e.users[newId].role == RoleOf(body) &&
        e.users[newId].password == BodyPassword(body) && !e.users[newId].isVerified)
  {
    var e := SendOtpEffect(cfg, users, order, body, random, sendOk, newId, now);
    var a := Fresh(body, BodyPassword(body), []);
    if cfg.loginType == "otp" && !(cfg.hasSender && !sendOk) && a.Some? && newId !in users {
      SendOtpStoresFresh(cfg, users, order, body, random, sendOk, newId, now);
      AppendKeepsConsistent(users, order, newId, e.users[newId]);
    } else {
      SendOtpStoresNothing(cfg, users, order, body, random, sendOk, newId, now);
    }
  }

  /** A send to an unknown identifier that creates no account leaves the accounts as they were. */
  lemma SendOtpStoresNothing(cfg: AuthConfig, users: map<Id, Account>, order: seq<Id>, body: Object,
                             random: string, sendOk: bool, newId: Id, now: int)
    requires TruthyAt(body, cfg.otpField) && cfg.otpLimit != 0
    requires FindBy(users, order, cfg.otpField, body[cfg.otpField]).None?
    requires !(cfg.loginType == "otp" && (!cfg.hasSender || sendOk) && Fresh(body, BodyPassword(body), []).Some? && newId !in users)
    ensures var e := SendOtpEffect(cfg, users, order, body, random, sendOk, newId, now);
      e.users == users && e.order == order && (cfg.loginType != "otp" ==> e.res == Reply(404, "User not found"))
  {
    var e := SendOtpEffect(cfg, users, order, body, random, sendOk, newId, now);
    if cfg.loginType != "otp" {
      assert e == Effect(Reply(404, "User not found"), users, order);
    } else {
      assert Throttled([], cfg.otpLimit, now) == Room([]);
      assert e == Effect(Reply(500, "Error sending OTP"), users, order);
    }
  }

  /** A send that creates an account stores the fresh account, holding only the new code, under `newId`. */
  lemma SendOtpStoresFresh(cfg: AuthConfig, users: map<Id, Account>, order: seq<Id>, body: Object,
                           random: string, sendOk: bool, newId: Id, now: int)
    requires TruthyAt(body, cfg.otpField) && cfg.otpLimit != 0
    requires FindBy(users, order, cfg.otpField, body[cfg.otpField]).None?
    requires cfg.loginType == "otp" && (!cfg.hasSender || sendOk) && Fresh(body, BodyPassword(body), []).Some? && newId !in users
    ensures var created := Fresh(body, BodyPassword(body), []).value.(otp := [OtpEntry(IssuedCode(cfg, random), now)]);
      SendOtpEffect(cfg, users, order, body, random, sendOk, newId, now) ==
        Effect(Reply(200, "OTP sent successfully"), users[newId := created], order + [newId])
  {
    assert Throttled([], cfg.otpLimit, now) == Room([]);
    var code := OtpEntry(IssuedCode(cfg, random), now);
    assert [] + [code] == [code];
  }

  /** Storing a new account under an unused id, listed last, keeps the collection consistent. */
  lemma AppendKeepsConsistent(users: map<Id, Account>, order: seq<Id>, newId: Id, a: Account)
    requires Consistent(users, order) && newId !in users
    ensures Consistent(users[newId := a], order + [newId])
  {
    var order' := order + [newId];
    assert newId !in order;
    forall i, j | 0 <= i < j < |order'| ensures order'[i] != order'[j] {
      if j == |order| { assert order'[i] in order; }
    }
  }

  // ---------------------------------------------------------------- verifyOtp, resetPassword

  /**
   * `verifyOtp`: a code equal to the last one verifies and unblocks the account and empties
   * its list, unless the save fails validation.
   */
  function VerifyOtpEffect(cfg: AuthConfig, users: map<Id, Account>, order: seq<Id>, body: Object): Effect
  {
    if !TruthyAt(body, cfg.otpField) then Effect(FieldRequired(cfg), users, order)
    else match FindBy(users, order, cfg.otpField, body[cfg.otpField])
      case None => Effect(Reply(404, "User not found"), users, order)
      case Some(id) =>
        var a := users[id];
        if a.otp == [] then Effect(Reply(400, "No OTP found"), users, order)
        else if LastMatches(a, body) then
          if !Savable(a) then Effect(Reply(500, "Error verifying OTP"), users, order)
          else Effect(Reply(200, "OTP verified"), users[id := a.(isVerified := true, isBlocked := false, otp := [])], order)
        else Effect(Reply(400, "Invalid OTP"), users, order)
  }

  /**
   * Verification: an empty list answers 400; a match on an account that validates sets
   * `isVerified`, clears `isBlocked` and empties the list, touching nothing else; a match on
   * one that does not validates answers 500; a mismatch answers 400 with nothing changed.
   * Only 200 changes the collection.
   */
  lemma {:induction false} VerifyOtpRules(cfg: AuthConfig, users: map<Id, Account>, order: seq<Id>, body: Object)
    requires TruthyAt(body, cfg.otpField)
    requires FindBy(users, order, cfg.otpField, body[cfg.otpField]).Some?
    ensures var id := FindBy(users, order, cfg.otpField, body[cfg.otpField]).value;
      var a := users[id];
      var e := VerifyOtpEffect(cfg, users, order, body);
      e.order == order &&
      (a.otp == [] ==> e.res == Reply(400, "No OTP found") && e.users == users) &&
      (a.otp != [] && !LastMatches(a, body) ==> e.res == Reply(400, "Invalid OTP") && e.users == users) &&
      (a.otp != [] && LastMatches(a, body) && !Savable(a) ==> e.res == Reply(500, "Error verifying OTP") && e.users == users) &&
      (e.res.status == 200 <==> a.otp != [] && LastMatches(a, body) && Savable(a)) &&
      (e.res.status == 200 ==>
        e.users[id].isVerified && !e.users[id].isBlocked && e.users[id].otp == [] &&
        e.users[id].profile == a.profile && e.users[id].password == a.password && e.users[id].role == a.role &&
        forall x :: x in users && x != id ==> x in e.users && e.users[x] == users[x])
  {
  }

  /** After a verification, the same code is refused: the list it was checked against is gone. */
  lemma {:induction false} VerifiedCodeIsSpent(cfg: AuthConfig, users: map<Id, Account>, order: seq<Id>, body: Object)
    requires TruthyAt(body, cfg.otpField)
    requires VerifyOtpEffect(cfg, users, order, body).res.status == 200
    ensures var e := VerifyOtpEffect(cfg, users, order, body);
      VerifyOtpEffect(cfg, e.users, e.order, body).res == Reply(400, "No OTP found")
  {
    var id := FindBy(users, order, cfg.otpField, body[cfg.otpField]).value;
    var a := users[id];
    var a' := a.(isVerified := true, isBlocked := false, otp := []);
    FindKeepsProfiles(users, order, id, a', cfg.otpField, body[cfg.otpField]);
  }

  /**
   * An account whose stored properties fail validation is never saved again: sending it a
   * code or verifying it answers an error and stores nothing. An unverified admin is such
   * an account (the role enum does not list `'admin'`), and `otpLogin` refuses unverified
   * admins, so an unverified admin can never log in by code.
   */
  lemma {:induction false} UnsavableAccountFrozen(cfg: AuthConfig, users: map<Id, Account>, order: seq<Id>, body: Object,
                                                  random: string, sendOk: bool, newId: Id, now: int, token: string)
    requires TruthyAt(body, cfg.otpField)
    requires FindBy(users, order, cfg.otpField, body[cfg.otpField]).Some?
    requires !Savable(users[FindBy(users, order, cfg.otpField, body[cfg.otpField]).value])
    ensures var s := SendOtpEffect(cfg, users, order, body, random, sendOk, newId, now);
      s.users == users && s.order == order && s.res.status != 200
    ensures var v := VerifyOtpEffect(cfg, users, order, body);
      v.users == users && v.order == order && v.res.status != 200
    ensures var a := users[FindBy(users, order, cfg.otpField, body[cfg.otpField]).value];
      a.role == Some("admin") && !a.isVerified ==> OtpLoginReply(cfg, users, order, body, token) == Reply(401, "User not verified")
  {
    var id := FindBy(users, order, cfg.otpField, body[cfg.otpField]).value;
    var current := users[id].otp;
    match Throttled(current, cfg.otpLimit, now)
    case Limited =>
    case Room(kept) =>
  }

  /**
   * `resetPassword`: both `otp` and `password` must be truthy; the last code must match;
   * the password is rehashed (bcrypt throws on a non-string) and the whole stored document
   * is returned. The code list is left as it is.
   */
  function ResetEffect(cfg: AuthConfig, users: map<Id, Account>, order: seq<Id>, body: Object, hashed: string): Effect
  {
    if !TruthyAt(body, "otp") || !TruthyAt(body, "password") then Effect(Reply(400, "All fields are required"), users, order)
    else if !TruthyAt(body, cfg.otpField) then Effect(FieldRequired(cfg), users, order)
    else match FindBy(users, order, cfg.otpField, body[cfg.otpField])
      case None => Effect(Reply(404, "User not found"), users, order)
      case Some(id) =>
        var a := users[id];
        if a.otp == [] then Effect(Reply(400, "No OTP found"), users, order)
        else if !LastMatches(a, body) then Effect(Reply(400, "Invalid OTP"), users, order)
        else if !body["password"].Str? then Effect(Reply(500, "Error resetting password"), users, order)
        else
          var updated := a.(password := Some(hashed));
          Effect(UserReply(200, "Password updated", Full(id, updated)), users[id := updated], order)
  }

  /**
   * A reset changes the password only, and only when the last code matches; the answer
   * carries the stored document with its new password hash and its code list, and the code
   * remains usable.
   */
  lemma {:induction false} ResetRules(cfg: AuthConfig, users: map<Id, Account>, order: seq<Id>, body: Object, hashed: string)
    ensures var e := ResetEffect(cfg, users, order, body, hashed);
      e.order == order &&
      (e.res.status == 200 <==>
        TruthyAt(body, "otp") && TruthyAt(body, "password") && TruthyAt(body, cfg.otpField) &&
        var found := FindBy(users, order, cfg.otpField, body[cfg.otpField]);
        found.Some? && users[found.value].otp != [] && LastMatches(users[found.value], body) && body["password"].Str?) &&
      (e.res.status != 200 ==> e.users == users) &&
      (e.res.status == 200 ==>
        var id := FindBy(users, order, cfg.otpField, body[cfg.otpField]).value;
        e.users == users[id := users[id].(password := Some(hashed))] &&
        UserOf(e.res) == Some(Full(id, e.users[id])) && "password" in UserOf(e.res).value &&
        e.users[id].otp == users[id].otp)
  {
  }

  // ---------------------------------------------------------------- getUser, updateUser

  /** `getUser`: the caller's own account without its secrets; an account that is gone makes `delete` throw. */
  function GetUserReply(users: map<Id, Account>, user: Option<Actor>): (r: Response)
    ensures user.None? || user.value.id == "" ==> r == Reply(401, "Unauthorized")
    ensures r.status == 200 <==> user.Some? && user.value.id != "" && user.value.id in users
    ensures r.status == 200 ==> UserOf(r) == Some(Shown(user.value.id, users[user.value.id]))
  {
    if user.None? || user.value.id == "" then Reply(401, "Unauthorized")
    else if user.value.id !in users then Reply(500, "Server error")
    else UserReply(200, "User retrieved", Shown(user.value.id, users[user.value.id]))
  }

  /** `updates.otp || updates.isVerified || updates.isBlocked || updates.role`. */
  predicate Restricted(updates: Object) {
    TruthyAt(updates, "otp") || TruthyAt(updates, "isVerified") || TruthyAt(updates, "isBlocked") || TruthyAt(updates, "role")
  }

  /**
   * Mongoose's boolean cast: `true`, "true", 1, "1" and "yes" are true; `false`, "false",
   * 0, "0" and "no" are false; `null` is stored as null, which reads as false; anything
   * else does not cast (`None`).
   */
  function CastBool(v: Json): (r: Option<bool>)
    ensures v.Bool? ==> r == Some(v.b)
    ensures r == Some(true) ==> Truthy(v)
    ensures v.Arr? || v.Obj? ==> r.None?
  {
    if v == Bool(true) || v == Str("true") || v == Num(1) || v == Str("1") || v == Str("yes") then Some(true)
    else if v == Bool(false) || v == Str("false") || v == Num(0) || v == Str("0") || v == Str("no") || v.Null? then Some(false)
    else None
  }

  /** One item of an `otp` array as the sub-schema casts it: a string code and a date. */
  function CastOtpItem(v: Json): (r: Option<OtpEntry>)
    ensures r.Some? ==> v.Obj? && "otp" in v.fields && v.fields["otp"] == Str(r.value.code) &&
                        "createdAt" in v.fields && v.fields["createdAt"] == Num(r.value.createdAt)
  {
    if v.Obj? && "otp" in v.fields && v.fields["otp"].Str? && "createdAt" in v.fields && v.fields["createdAt"].Num? then
      Some(OtpEntry(v.fields["otp"].s, v.fields["createdAt"].n))
    else None
  }

  /** An `otp` value as the schema casts it: an array of codes; `null` reads as no codes; anything else does not cast. */
  function CastOtp(v: Json): (r: Option<seq<OtpEntry>>)
    ensures v.Null? || v == Arr([]) ==> r == Some([])
    ensures r.Some? && !v.Null? ==>
      (v.Arr? && |r.value| == |v.items| && forall i :: 0 <= i < |v.items| ==> CastOtpItem(v.items[i]) == Some(r.value[i]))
    ensures !v.Null? && !v.Arr? ==> r.None?
  {
    if v.Null? then Some([])
    else if v.Arr? && forall i :: 0 <= i < |v.items| ==> CastOtpItem(v.items[i]).Some? then
      Some(seq(|v.items|, i requires 0 <= i < |v.items| && CastOtpItem(v.items[i]).Some? => CastOtpItem(v.items[i]).value))
    else None
  }

  /** Writing back the code list a document shows stores the same codes. */
  lemma {:induction false} CastOtpList(otp: seq<OtpEntry>)
    ensures CastOtp(Arr(OtpList(otp))) == Some(otp)
  {
    var js := OtpList(otp);
    forall i | 0 <= i < |js|
      ensures CastOtpItem(js[i]) == Some(otp[i])
    {
      assert js[i] == OtpJson(otp[i]);
    }
    var r := CastOtp(Arr(js));
    assert r.Some? && |r.value| == |otp|;
    forall i | 0 <= i < |otp|
      ensures r.value[i] == otp[i]
    {
      assert CastOtpItem(js[i]) == Some(r.value[i]);
    }
    assert r.value == otp;
  }

  /**
   * `findByIdAndUpdate(id, updates, { runValidators: true })` on an account once the gate
   * has passed. The fields written are the plain properties and the contents of a `$set`
   * operator; `role` must be an enum value (so the update fails otherwise), the other
   * enumerated properties must validate, `isVerified` and `isBlocked` go through the
   * boolean cast and `otp` through the array cast, where a value that does not cast fails
   * the update; other properties are written as given.
   */
  function Applied(a: Account, updates: Object): (r: Option<Account>)
    ensures var sets := SetOf(updates);
      r.Some? <==>
        ("role" in sets ==> InEnum(sets["role"], Roles)) && EnumsValid(Profile(sets)) &&
        ("isVerified" in sets ==> CastBool(sets["isVerified"]).Some?) &&
        ("isBlocked" in sets ==> CastBool(sets["isBlocked"]).Some?) &&
        ("otp" in sets ==> CastOtp(sets["otp"]).Some?)
    ensures var sets := SetOf(updates);
      r.Some? ==>
        r.value.role == (if "role" in sets then StringOrNull(sets["role"]) else a.role) &&
        (forall k :: k in sets && k !in Reserved ==> k in r.value.profile && r.value.profile[k] == sets[k]) &&
        (forall k :: k in a.profile && k !in sets ==> k in r.value.profile && r.value.profile[k] == a.profile[k]) &&
        r.value.isVerified == (if "isVerified" in sets then CastBool(sets["isVerified"]).value else a.isVerified) &&
        r.value.isBlocked == (if "isBlocked" in sets then CastBool(sets["isBlocked"]).value else a.isBlocked) &&
        r.value.otp == (if "otp" in sets then CastOtp(sets["otp"]).value else a.otp) &&
        ("password" !in sets ==> r.value.password == a.password)
  {
    var sets := SetOf(updates);
    if "role" in sets && !InEnum(sets["role"], Roles) then None
    else if !EnumsValid(Profile(sets)) then None
    else if "isVerified" in sets && CastBool(sets["isVerified"]).None? then None
    else if "isBlocked" in sets && CastBool(sets["isBlocked"]).None? then None
    else if "otp" in sets && CastOtp(sets["otp"]).None? then None
    else Some(Account(
      a.profile + Profile(sets),
      if "password" !in sets then a.password else StringOrNull(sets["password"]),
      if "role" in sets then StringOrNull(sets["role"]) else a.role,
      if "isVerified" in sets then CastBool(sets["isVerified"]).value else a.isVerified,
      if "isBlocked" in sets then CastBool(sets["isBlocked"]).value else a.isBlocked,
      if "otp" in sets then CastOtp(sets["otp"]).value else a.otp))
  }

  /**
   * What the restricted-field gate inspects: `TopLevel`, the truthiness of the body's own
   * properties, as `updateUser` does; `Effective`, whether the update would write a
   * restricted field at all, which also sees inside a `$set` operator.
   */
  datatype GateRule = TopLevel | Effective

  /** The update writes one of `otp`, `isVerified`, `isBlocked`, `role`, whatever its value. */
  predicate WritesRestricted(updates: Object) {
    var sets := SetOf(updates);
    "otp" in sets || "isVerified" in sets || "isBlocked" in sets || "role" in sets
  }

  predicate Refused(rule: GateRule, body: Object) {
    match rule
    case TopLevel => Restricted(body)
    case Effective => WritesRestricted(body)
  }

  /**
   * `updateUser`: a truthy restricted field answers 400; a truthy `currentPassword` must
   * pass bcrypt (`matches`), and then the new password is hashed (`hashed`) and
   * `currentPassword` dropped; the update is applied to the caller's account.
   */
  function UpdateUserEffect(users: map<Id, Account>, order: seq<Id>, user: Option<Actor>, body: Object, rule: GateRule,
                            matches: bool, hashed: string): Effect
  {
    if user.None? || user.value.id == "" then Effect(Reply(401, "Unauthorized"), users, order)
    else if Refused(rule, body) then Effect(Reply(400, "Cannot update restricted fields"), users, order)
    else
      var id := user.value.id;
      if TruthyAt(body, "currentPassword") && id !in users then Effect(Reply(500, "Error updating user"), users, order)
      else if TruthyAt(body, "currentPassword") && (!body["currentPassword"].Str? || users[id].password.None?) then
        Effect(Reply(500, "Error updating user"), users, order)
      else if TruthyAt(body, "currentPassword") && !matches then Effect(Reply(401, "Current password is incorrect"), users, order)
      else if TruthyAt(body, "currentPassword") && !("password" in body && body["password"].Str?) then
        Effect(Reply(500, "Error updating user"), users, order)
      else
        var updates := UpdatesOf(body, hashed);
        if id !in users then Effect(Reply(500, "Error updating user"), users, order)
        else match Applied(users[id], updates)
          case None => Effect(Reply(500, "Error updating user"), users, order)
          case Some(a) => Effect(UserReply(200, "User updated", Shown(id, a)), users[id := a], order)
  }

  /** The update `updateUser` writes for `body`: with `currentPassword`, the body without it and with the new hash. */
  function UpdatesOf(body: Object, hashed: string): (updates: Object)
    ensures forall k :: k != "currentPassword" && k != "password" ==> (k in updates <==> k in body) && (k in body ==> updates[k] == body[k])
  {
    if TruthyAt(body, "currentPassword") then (body - {"currentPassword"})["password" := Str(hashed)] else body
  }

  /** A successful update passed the gate and applied the written fields to the caller's account alone. */
  lemma UpdateUserSucceeded(users: map<Id, Account>, order: seq<Id>, user: Option<Actor>, body: Object, rule: GateRule,
                            matches: bool, hashed: string)
    requires UpdateUserEffect(users, order, user, body, rule, matches, hashed).res.status == 200
    ensures user.Some? && user.value.id != "" && !Refused(rule, body) && user.value.id in users
    ensures var a := Applied(users[user.value.id], UpdatesOf(body, hashed));
      a.Some? &&
      UpdateUserEffect(users, order, user, body, rule, matches, hashed) ==
        Effect(UserReply(200, "User updated", Shown(user.value.id, a.value)), users[user.value.id := a.value], order)
  {
  }

  /**
   * The restricted-field gate is on the truthiness of the body's own properties: a
   * caller's update is refused with 400 and nothing changed exactly when one of `otp`,
   * `isVerified`, `isBlocked`, `role` is truthy there, so a falsy `isBlocked` or
   * `isVerified` passes the gate and is stored as false, and a falsy `role` either fails
   * the update or, when it is `null`, clears the role. A successful update answers with
   * the account without its secrets and changes only the caller's account, and its role
   * only when the update writes one.
   */
  lemma {:induction false} RestrictedByTruthiness(users: map<Id, Account>, order: seq<Id>, user: Option<Actor>, body: Object,
                                                  matches: bool, hashed: string)
    requires user.Some? && user.value.id != ""
    ensures var e := UpdateUserEffect(users, order, user, body, TopLevel, matches, hashed);
      var id := user.value.id;
      (e.res == Reply(400, "Cannot update restricted fields") <==> Restricted(body)) &&
      (Restricted(body) ==> e.users == users && e.order == order) &&
      (e.res.status == 200 ==>
        id in users && e.order == order && e.users.Keys == users.Keys &&
        (forall x :: x in users && x != id ==> e.users[x] == users[x]) &&
        UserOf(e.res) == Some(Shown(id, e.users[id])) &&
        ("isBlocked" in body ==> !e.users[id].isBlocked) &&
        ("isVerified" in body ==> !e.users[id].isVerified) &&
        ("role" in body ==> body["role"] == Null && e.users[id].role.None?) &&
        ("role" !in SetOf(body) ==> e.users[id].role == users[id].role))
  {
    var e := UpdateUserEffect(users, order, user, body, TopLevel, matches, hashed);
    if !Restricted(body) {
      assert e.res.status != 400;
    }
    if e.res.status == 200 {
      var id := user.value.id;
      UpdateUserSucceeded(users, order, user, body, TopLevel, matches, hashed);
      TopLevelWrites(users[id], body, hashed);
    }
  }

  /** What an update past the written gate can write: falsy `isBlocked` and `isVerified`, and a `null` role at most of its own. */
  lemma TopLevelWrites(a: Account, body: Object, hashed: string)
    requires !Restricted(body) && Applied(a, UpdatesOf(body, hashed)).Some?
    ensures var r := Applied(a, UpdatesOf(body, hashed)).value;
      ("isBlocked" in body ==> !r.isBlocked) && ("isVerified" in body ==> !r.isVerified) &&
      ("role" in body ==> body["role"] == Null && r.role.None?) && ("role" !in SetOf(body) ==> r.role == a.role)
  {
    GateKeysSet(body, hashed);
    var updates := UpdatesOf(body, hashed);
    var sets := SetOf(updates);
    var r := Applied(a, updates).value;
    if "isBlocked" in body {
      assert r.isBlocked == CastBool(sets["isBlocked"]).value;
    }
    if "isVerified" in body {
      assert r.isVerified == CastBool(sets["isVerified"]).value;
    }
    if "role" in body {
      assert sets["role"] == body["role"] && InEnum(body["role"], Roles);
    }
  }

  /** The keys the gate inspects reach the update as the body gives them. */
  lemma GateKeysSet(body: Object, hashed: string)
    ensures var sets := SetOf(UpdatesOf(body, hashed));
      ("isBlocked" in body ==> "isBlocked" in sets && sets["isBlocked"] == body["isBlocked"]) &&
      ("isVerified" in body ==> "isVerified" in sets && sets["isVerified"] == body["isVerified"]) &&
      ("role" in body ==> "role" in sets && sets["role"] == body["role"]) &&
      ("role" !in SetOf(body) ==> "role" !in sets)
  {
    SetOfUpdates(body, hashed);
  }

  /** The password step leaves every field but `password` and `currentPassword` as the body writes it. */
  lemma SetOfUpdates(body: Object, hashed: string)
    ensures var a := SetOf(UpdatesOf(body, hashed)); var b := SetOf(body);
      forall k :: k != "currentPassword" && k != "password" ==> (k in a <==> k in b) && (k in a ==> a[k] == b[k])
  {
    var updates := UpdatesOf(body, hashed);
    assert ("$set" in updates && updates["$set"].Obj?) <==> ("$set" in body && body["$set"].Obj?);
  }

  /**
   * Without `currentPassword`, a `password` in an update that applies is stored exactly as
   * sent: it is neither checked against the old one nor hashed.
   */
  lemma {:induction false} PasswordWithoutCurrent(users: map<Id, Account>, order: seq<Id>, user: Option<Actor>,
                                                  body: Object, matches: bool, hashed: string)
    requires user.Some? && user.value.id in users && user.value.id != ""
    requires !Restricted(body) && !TruthyAt(body, "currentPassword")
    requires Applied(users[user.value.id], body).Some?
    requires "password" in body && body["password"].Str?
    ensures var e := UpdateUserEffect(users, order, user, body, TopLevel, matches, hashed);
      e.res.status == 200 && e.users[user.value.id].password == Some(body["password"].s)
  {
    assert SetOf(body)["password"] == body["password"];
  }

  /**
   * As written, the gate looks only at the body's own properties, so a `$set` operator
   * carries restricted fields past it: a customer who sends
   * `{ "$set": { "role": "agent", "isVerified": true } }` is answered 200 and becomes a
   * verified agent.
   */
  lemma SetBypassesGate(users: map<Id, Account>, order: seq<Id>, user: Option<Actor>, matches: bool, hashed: string)
    requires user.Some? && user.value.id in users && user.value.id != ""
    requires users[user.value.id].role == Some("customer") && !users[user.value.id].isVerified
    ensures var body := map["$set" := Obj(map["role" := Str("agent"), "isVerified" := Bool(true)])];
      var e := UpdateUserEffect(users, order, user, body, TopLevel, matches, hashed);
      e.res.status == 200 && e.users[user.value.id].role == Some("agent") && e.users[user.value.id].isVerified
  {
    var body := map["$set" := Obj(map["role" := Str("agent"), "isVerified" := Bool(true)])];
    assert !Evaluated("$set");
    var sets := map["role" := Str("agent"), "isVerified" := Bool(true)];
    assert SetOf(body) == sets;
    assert Profile(sets) == map[];
    assert !Restricted(body) && UpdatesOf(body, hashed) == body;
    var r := Applied(users[user.value.id], body);
    assert r.Some? && r.value.role == Some("agent") && r.value.isVerified;
  }

  /**
   * With the gate on the fields the update writes, no successful update touches the
   * caller's privileges: the role, the verification, the block and the code list are all
   * unchanged. This gate refuses everything the written one refuses.
   */
  lemma {:induction false} EffectiveGateKeepsPrivileges(users: map<Id, Account>, order: seq<Id>, user: Option<Actor>,
                                                        body: Object, matches: bool, hashed: string)
    requires user.Some? && user.value.id != ""
    ensures Refused(TopLevel, body) ==> Refused(Effective, body)
    ensures var e := UpdateUserEffect(users, order, user, body, Effective, matches, hashed);
      var id := user.value.id;
      e.res.status == 200 ==>
        id in users && e.users[id].role == users[id].role && e.users[id].isVerified == users[id].isVerified &&
        e.users[id].isBlocked == users[id].isBlocked && e.users[id].otp == users[id].otp
  {
    var id := user.value.id;
    var e := UpdateUserEffect(users, order, user, body, Effective, matches, hashed);
    if Restricted(body) {
      TopLevelWithin(body);
    }
    if e.res.status == 200 {
      UpdateUserSucceeded(users, order, user, body, Effective, matches, hashed);
      EffectiveWrites(users[id], body, hashed);
    }
  }

  /** The fields the body writes include its own restricted ones, so the effective gate sees them too. */
  lemma TopLevelWithin(body: Object)
    requires Restricted(body)
    ensures WritesRestricted(body)
  {
    assert Evaluated("otp") && Evaluated("isVerified") && Evaluated("isBlocked") && Evaluated("role");
  }

  /** An update past the effective gate leaves the role, the verification, the block and the code list alone. */
  lemma EffectiveWrites(a: Account, body: Object, hashed: string)
    requires !WritesRestricted(body) && Applied(a, UpdatesOf(body, hashed)).Some?
    ensures var r := Applied(a, UpdatesOf(body, hashed)).value;
      r.role == a.role && r.isVerified == a.isVerified && r.isBlocked == a.isBlocked && r.otp == a.otp
  {
    SetOfUpdates(body, hashed);
    var written := SetOf(UpdatesOf(body, hashed));
    assert "otp" !in written && "isVerified" !in written && "isBlocked" !in written && "role" !in written;
  }

  // ---------------------------------------------------------------- authorizeRole

  /** The `role` argument of `authorizeRole`: one role name, a list of them, or anything else. */
  datatype RoleRule = OneRole(name: string) | AnyRole(names: seq<string>) | OtherRule

  datatype Gate = Next | Refuse(res: Response)

  /** The middleware `authorizeRole(rule)` returns, on `req.token` and `req.user`. */
  function AuthorizeRole(rule: RoleRule, hasToken: bool, user: Option<Actor>): Gate {
    if !hasToken then Refuse(Reply(401, "Access denied. No token provided."))
    else if rule.OneRole? && user.Some? && user.value.role == rule.name then Next
    else if rule.AnyRole? && user.Some? && user.value.role in rule.names then Next
    else Refuse(Reply(403, "Insufficient permissions. Your role does not have access to this API."))
  }

  /**
   * The role gate: no token answers 401; a single role must equal the caller's exactly; a
   * list must contain it; everything else answers 403.
   */
  lemma {:induction false} AuthorizeRoleRules(rule: RoleRule, hasToken: bool, user: Option<Actor>)
    ensures var g := AuthorizeRole(rule, hasToken, user);
      (!hasToken ==> g.Refuse? && g.res.status == 401) &&
      (g.Next? <==>
         (hasToken && user.Some? &&
          ((rule.OneRole? && user.value.role == rule.name) || (rule.AnyRole? && user.value.role in rule.names)))) &&
      (hasToken && g.Refuse? ==> g.res.status == 403)
  {
    var g := AuthorizeRole(rule, hasToken, user);
    if !hasToken {
      assert g == Refuse(Reply(401, "Access denied. No token provided."));
    } else if g.Refuse? {
      assert g == Refuse(Reply(403, "Insufficient permissions. Your role does not have access to this API."));
    }
  }

  // ---------------------------------------------------------------- the engine

  /** One `AuthController` instance over the user collection. */
  class AuthController {
    const config: AuthConfig
    var users: map<Id, Account>
    var order: seq<Id>

    ghost predicate Valid()
      reads this
    {
      Consistent(users, order)
    }

    constructor (loginType: string, otpField: string, otpLimit: int, hasSender: bool, users0: map<Id, Account>, order0: seq<Id>)
      requires Consistent(users0, order0)
      ensures Valid()
      ensures config == NewConfig(loginType, otpField, otpLimit, hasSender)
      ensures users == users0 && order == order0
    {
      config := NewConfig(loginType, otpField, otpLimit, hasSender);
      users := users0;
      order := order0;
    }

    method Register(body: Object, hashed: string, random: string, sendOk: bool, newId: Id, now: int) returns (res: Response)
      requires Valid()
      modifies this
      ensures Valid()
      ensures var e := old(RegisterEffect(config, users, order, body, hashed, random, sendOk, newId, now));
        res == e.res && users == e.users && order == e.order
    {
      RegisterRules(config, users, order, body, hashed, random, sendOk, newId, now);
      if !TruthyAt(body, config.otpField) {
        return FieldRequired(config);
      }
      var found := FindBy(users, order, config.otpField, body[config.otpField]);
      if found.Some? {
        if !users[found.value].isVerified {
          users := users - {found.value};
          order := Erase(order, found.value);
        }
        return Reply(400, "User already exists");
      }
      if !("password" in body && body["password"].Str?) {
        return Reply(500, "Server error");
      }
      if "role" in body && (LooselyEquals(body["role"], "admin") || LooselyEquals(body["role"], "Admin")) {
        return Reply(400, "Admin registration is not allowed");
      }
      var a := Fresh(body, Some(hashed), [OtpEntry(IssuedCode(config, random), now)]);
      if a.None? || newId in users {
        return Reply(500, "Server error");
      }
      users := users[newId := a.value];
      order := order + [newId];
      if config.hasSender && !sendOk {
        return Reply(500, "Error sending OTP");
      }
      res := UserReply(201, "User registered", Shown(newId, a.value));
    }

    method Login(body: Object, matches: bool, token: string) returns (res: Response)
      ensures res == LoginReply(config, users, order, body, matches, token)
    {
      if config.loginType == "otp" {
        res := OtpLogin(body, token);
        return;
      }
      if !TruthyAt(body, config.otpField) {
        return FieldRequired(config);
      }
      var found := FindBy(users, order, config.otpField, body[config.otpField]);
      if found.None? {
        return Reply(404, "User not found");
      }
      var a := users[found.value];
      if !a.isVerified {
        return Reply(401, "User not verified");
      }
      if a.isBlocked {
        return Reply(401, "User is blocked");
      }
      if !("password" in body && body["password"].Str?) || a.password.None? {
        return Reply(500, "Server error");
      }
      if !matches {
        return Reply(401, "Invalid password");
      }
      res := Send(Unsent, 200, Obj(map["message" := Str("Login successful"), "user" := Obj(Shown(found.value, a)), "token" := Str(token)]));
    }

    method OtpLogin(body: Object, token: string) returns (res: Response)
      ensures res == OtpLoginReply(config, users, order, body, token)
    {
      if !TruthyAt(body, config.otpField) {
        return FieldRequired(config);
      }
      var found := FindBy(users, order, config.otpField, body[config.otpField]);
      if found.None? {
        return Reply(404, "User not found");
      }
      var a := users[found.value];
      if a.role == Some("admin") && !a.isVerified {
        return Reply(401, "User not verified");
      }
      if a.isBlocked {
        return Reply(401, "User is blocked");
      }
      if a.otp == [] {
        return Reply(500, "Server error");
      }
      if !LastMatches(a, body) {
        return Reply(401, "Invalid OTP");
      }
      res := Send(Unsent, 200, Obj(map["message" := Str("OTP login successful"), "token" := Str(token), "user" := Obj(OtpShown(found.value, a))]));
    }

    method SendOtp(body: Object, random: string, sendOk: bool, newId: Id, now: int) returns (res: Response)
      requires Valid()
      modifies this
      ensures Valid()
      ensures var e := old(SendOtpEffect(config, users, order, body, random, sendOk, newId, now));
        res == e.res && users == e.users && order == e.order
    {
      if !TruthyAt(body, config.otpField) {
        return FieldRequired(config);
      }
      var found := FindBy(users, order, config.otpField, body[config.otpField]);
      if found.None? && config.loginType != "otp" {
        return Reply(404, "User not found");
      }
      var otp := if found.Some? then users[found.value].otp else [];
      ghost var t := Throttled(otp, config.otpLimit, now);
      if |otp| == config.otpLimit {
        var recent := Recent(otp, now);
        if |recent| == config.otpLimit {
          return Reply(429, "OTP limit exceeded. Please try again later.");
        }
        var elementToDelete := config.otpLimit - |recent|;
        if elementToDelete > 0 {
          otp := otp[elementToDelete..];
        }
      }
      assert t == Room(otp);
      if config.hasSender && !sendOk {
        return Reply(500, "Error sending OTP");
      }
      otp := otp + [OtpEntry(IssuedCode(config, random), now)];
      if found.Some? {
        if !Savable(users[found.value]) {
          return Reply(500, "Error sending OTP");
        }
        users := users[found.value := users[found.value].(otp := otp)];
      } else {
        var a := Fresh(body, BodyPassword(body), []);
        if a.None? || newId in users {
          return Reply(500, "Error sending OTP");
        }
        assert newId !in order;
        users := users[newId := a.value.(otp := otp)];
        order := order + [newId];
        forall i, j | 0 <= i < j < |order| ensures order[i] != order[j] {
          if j == |order| - 1 { assert order[i] in old(order); }
        }
      }
      res := Reply(200, "OTP sent successfully");
    }

    /** `forgotPassword` is `sendOtp`. */
    method ForgotPassword(body: Object, random: string, sendOk: bool, newId: Id, now: int) returns (res: Response)
      requires Valid()
      modifies this
      ensures Valid()
      ensures var e := old(SendOtpEffect(config, users, order, body, random, sendOk, newId, now));
        res == e.res && users == e.users && order == e.order
    {
      res := SendOtp(body, random, sendOk, newId, now);
    }

    method VerifyOtp(body: Object) returns (res: Response)
      requires Valid()
      modifies this
      ensures Valid()
      ensures var e := old(VerifyOtpEffect(config, users, order, body));
        res == e.res && users == e.users && order == e.order
    {
      if !TruthyAt(body, config.otpField) {
        return FieldRequired(config);
      }
      var found := FindBy(users, order, config.otpField, body[config.otpField]);
      if found.None? {
        return Reply(404, "User not found");
      }
      var id := found.value;
      if users[id].otp == [] {
        return Reply(400, "No OTP found");
      }
      if LastMatches(users[id], body) {
        if !Savable(users[id]) {
          return Reply(500, "Error verifying OTP");
        }
        users := users[id := users[id].(isVerified := true, isBlocked := false, otp := [])];
        return Reply(200, "OTP verified");
      }
      res := Reply(400, "Invalid OTP");
    }

    method ResetPassword(body: Object, hashed: string) returns (res: Response)
      requires Valid()
      modifies this
      ensures Valid()
      ensures var e := old(ResetEffect(config, users, order, body, hashed));
        res == e.res && users == e.users && order == e.order
    {
      if !TruthyAt(body, "otp") || !TruthyAt(body, "password") {
        return Reply(400, "All fields are required");
      }
      if !TruthyAt(body, config.otpField) {
        return FieldRequired(config);
      }
      var found := FindBy(users, order, config.otpField, body[config.otpField]);
      if found.None? {
        return Reply(404, "User not found");
      }
      var id := found.value;
      if users[id].otp == [] {
        return Reply(400, "No OTP found");
      }
      if !LastMatches(users[id], body) {
        return Reply(400, "Invalid OTP");
      }
      if !body["password"].Str? {
        return Reply(500, "Error resetting password");
      }
      users := users[id := users[id].(password := Some(hashed))];
      res := UserReply(200, "Password updated", Full(id, users[id]));
    }

    method GetUser(user: Option<Actor>) returns (res: Response)
      ensures res == GetUserReply(users, user)
    {
      if user.None? || user.value.id == "" {
        return Reply(401, "Unauthorized");
      }
      if user.value.id !in users {
        return Reply(500, "Server error");
      }
      res := UserReply(200, "User retrieved", Shown(user.value.id, users[user.value.id]));
    }

    method UpdateUser(user: Option<Actor>, body: Object, matches: bool, hashed: string) returns (res: Response)
      requires Valid()
      modifies this
      ensures Valid()
      ensures var e := old(UpdateUserEffect(users, order, user, body, TopLevel, matches, hashed));
        res == e.res && users == e.users && order == e.order
    {
      if user.None? || user.value.id == "" {
        return Reply(401, "Unauthorized");
      }
      if Restricted(body) {
        return Reply(400, "Cannot update restricted fields");
      }
      var id := user.value.id;
      var updates := body;
      if TruthyAt(body, "currentPassword") {
        if id !in users || !body["currentPassword"].Str? || users[id].password.None? {
          return Reply(500, "Error updating user");
        }
        if !matches {
          return Reply(401, "Current password is incorrect");
        }
        if !("password" in body && body["password"].Str?) {
          return Reply(500, "Error updating user");
        }
        updates := (updates - {"currentPassword"})["password" := Str(hashed)];
      }
      if id !in users {
        return Reply(500, "Error updating user");
      }
      var a := Applied(users[id], updates);
      if a.None? {
        return Reply(500, "Error updating user");
      }
      users := users[id := a.value];
      res := UserReply(200, "User updated", Shown(id, a.value));
    }
  }
}
