# Loan-application backend: a Dafny model

This project models the request-handling core of an Express/Mongoose backend for loan,
credit-card and insurance applications. The parts modelled are:

- the generic CRUD engine (`core/BaseController.js`): configuration defaults, page
  arithmetic, list filters built from owner scoping, declared fields and text search, the
  `pre` hooks, and the six handlers;
- the application workflow of the loan, credit and insurance controllers:
  - creation with a randomly assigned agent and one `pending` status entry;
  - the customer update hook that only runs while documents are missing;
  - the agent update handlers that rewrite the last status entry, claim the application
    and create notifications;
- the admin panel (`controller/admin.js`):
  - the cross-kind listing, which merges, tags, sorts newest first and slices a page;
  - the case-insensitive type dispatch of get, update and delete;
  - the block toggle;
- the account engine (`core/AuthController.js`): registration, password and OTP login, the
  OTP send throttle, verification, password reset, the caller's own profile and its
  update, and the role gate; every user `save()` validates the whole document against the
  user schema's enums (models/User.js), so an account stored with the role `"admin"`
  (which the enum does not list) can neither receive nor verify an OTP, nor be toggled;
- the small engine configurations of `controller/cibil.js`,
  `controller/InsuranceRenewal.js` and `controller/media.js`.

The document store is an in-memory map from `_id` to a JSON-like document, plus the
natural (insertion) order of the ids. The store is a `Collection` class whose methods
update it in place, and notifications are an append-only log. Every handler is a method
on such state. Each handler is proved equal to a function of the state before the
request (`…Reply` or `…Effect`), and lemmas state what those functions promise.

JavaScript semantics that matter are written out:

- truthiness and `||` defaults;
- strict versus loose equality;
- `parseInt` with and without a radix;
- `Array.prototype.slice` with negative indices;
- `Object.assign` and object spread;
- `for…in` over own properties;
- exceptions (a missing caller, dereferencing an empty list, bcrypt given a non-string),
  which become the handler's `catch` reply.

Inputs the handlers cannot compute are parameters:

- the clock (`now`);
- the random agent index (`pick`);
- the random OTP;
- the ObjectId the driver generates;
- bcrypt's hash and its comparison verdict;
- the JWT a login signs;
- whether the OTP sender succeeded.

Modules:

| file | module | what it holds |
|---|---|---|
| wrappers.dfy | `Wrappers` | `Option` |
| user_schema.dfy | `UserSchema` | the enum validation a user `save()` runs |
| json.dfy | `Json` | JSON values, truthiness, `Object.assign`, spread |
| parse_int.dfy | `JsNumber` | `parseInt` and the fallback of a parsed number |
| sorting.dfy | `Sorting` | a stable descending sort by a key |
| http.dfy | `Http` | request, caller, response sent once |
| store.dfy | `Store` | documents, equality filters, timestamps, cursor window, `Collection` |
| application_status.dfy | `ApplicationStatus` | the three kinds, status entries, hydration and saving |
| hooks.dfy | `Hooks` | the `pre` hooks the controllers configure |
| customer_update.dfy | `CustomerUpdate` | the customer `updateById.pre` hook of loan and credit |
| documents.dfy | `DocumentMerge` | the customer and agent merges of `documents` |
| base_controller.dfy | `BaseController` | the CRUD engine and its `Engine` class |
| applications.dfy | `Applications` | application create, agent update, notifications |
| controllers.dfy | `Controllers` | the engine configurations of each controller |
| admin.dfy | `Admin` | the admin panel and its `AdminPanel` class |
| auth.dfy | `Auth` | the account engine and its `AuthController` class |

## Model

| member | source | states |
|---|---|---|
| JsNumber.OrDefault | core/BaseController.js:58-60 | `parseInt(x) \|\| d` never gives 0 when the default is not 0; the result is either the default or the parsed value, and a parsed non-zero value always wins |
| JsNumber.ParseDecimalPrefix | core/BaseController.js:58-60 | `parseInt` reads the leading decimal digits of a value and ignores the rest, with or without radix 10 |
| JsNumber.ParseIntString | core/BaseController.js:58 | `parseInt(String(n), 10)` gives back `n` for every integer, negative ones included |
| JsNumber.HexPrefixWithoutRadix | controller/admin.js:205-206 | without a radix (the admin listing) `"0x10"` parses as 16 |
| JsNumber.HexPrefixWithDecimalRadix | core/BaseController.js:58-60 | with radix 10 (the engine) `"0x10"` parses as 0, so the default applies |
| JsNumber.ValueOfDecimal | core/BaseController.js:58 | the decimal digits of a natural number read back as that number |
| Json.OrElse | core/AuthController.js:11-13 | `o[k] \|\| fallback` is `o[k]` when truthy and the fallback otherwise, so with a truthy fallback the result is always truthy (a configured default is never empty) |
| Json.OwnProps | controller/loan.js:193-196 | spreading `null`, a boolean or a number copies nothing; spreading an object copies its fields |
| Json.Assign | controller/loan.js:90 | `Object.assign`: the result has both key sets; source values win, target values survive elsewhere |
| Json.AssignIdempotent | controller/loan.js:90 | assigning the same source twice equals assigning it once |
| Json.Text | core/AuthController.js:59 | `String(v)` as loose `==` applies it: a string is itself, and a one-item array holding a string is that string |
| Sorting.SortDesc | controller/admin.js:203 | the sort returns a permutation of its input (same length, same multiset), ordered by the key, descending |
| Sorting.InsertDesc | controller/admin.js:203 | one insertion step keeps the multiset and keeps a sorted list sorted |
| Sorting.SortDescSameItems | controller/admin.js:203 | an item is in the sorted list iff it was in the input |
| Sorting.SortDescStable | controller/admin.js:203 | the sort is stable: the items of any one key keep their input order |
| Store.Select | core/BaseController.js:117-134 | `find(filter)`: an id is selected iff it is in the natural order, stored and matching; the selection is a subsequence of the natural order (so in that order), no longer than it, and holds no id twice when the order does not |
| Store.NewestFirst | core/BaseController.js:117-121 | `sort({createdAt: -1})` is a permutation of the matches, newest first |
| Store.Window | core/BaseController.js:114-121 | `skip`/`limit`: a negative skip is refused; otherwise item i of the window is item `skip + i` of the input, and the window holds exactly `\|limit\|` items, or all that remain after `skip` when fewer do or the limit is 0 |
| Store.Created | core/BaseController.js:190-191 | an insert keeps the given fields, sets `createdAt` (unless one was given) and an equal `updatedAt`, and stores no `_id` field |
| Store.Saved | controller/loan.js:93 | `save()` of a changed document writes the changed fields, keeps the stored immutable `createdAt`, sets `updatedAt` to now |
| Store.SetOf | core/BaseController.js:231 | an update document sets its plain top-level keys (and `$set`'s) |
| Store.Updated | core/BaseController.js:231 | `findOneAndUpdate`: set fields overwrite, the rest of the stored document survives, `createdAt` is kept, `updatedAt` is now |
| Store.UpdateAfterSaveRedundant | controller/loan.js:89-93 | updating a freshly saved document with fields it already holds changes nothing |
| Store.Erase | core/BaseController.js:270 | removing an id from the order keeps every other id and keeps ids distinct |
| Store.FindAfterErase | core/BaseController.js:270 | after a deletion, a document matches a filter iff it matched before and is not the deleted one |
| Store.Collection.Find | core/BaseController.js:117 | exactly the ids of the stored documents that match, as a subsequence of the natural order, none twice in a valid store |
| Store.Collection.FindFirst | controller/loan.js:39 | `findOne`: the first id of the natural order whose document matches (every earlier id does not), or none when no stored document matches |
| Store.SelectFirst | core/BaseController.js:117-134 | the first selected id is the first matching id of the natural order |
| Store.Collection.Count | core/BaseController.js:134 | `countDocuments` never exceeds the number of ids, and in a valid store equals the number of stored documents that match |
| Store.CountMatches | core/BaseController.js:134 | in a consistent store the number of selected ids is the number of matching documents |
| Store.Collection.Insert | core/BaseController.js:190-191 | the store gains exactly the created document, appended to the natural order |
| Store.Collection.Save | controller/loan.js:93 | only the saved document changes, to its saved form; the order is unchanged |
| Store.Collection.Update | core/BaseController.js:231 | only the matched document changes, to its updated form; the order is unchanged |
| Store.Collection.Delete | core/BaseController.js:270 | the document leaves both the map and the order |
| ApplicationStatus.States | models/Loan.js:113-133 | every kind's `state` enum contains pending, accepted and rejected (loan and credit have nine states, insurance three) |
| ApplicationStatus.Encode | models/Credit.js:103-124 | the status array has one schema-shaped entry per status entry, in order |
| ApplicationStatus.DecodeAll | models/Loan.js:113-133 | hydration succeeds with one entry per item exactly when every item casts |
| ApplicationStatus.DecodeEncode | models/Loan.js:113-133 | hydrating what `save()` wrote gives back the same entries (round trip) |
| ApplicationStatus.DecodeEncodeEntry | models/Insurance.js:44-59 | the round trip for one entry; an insurance entry has no missing documents |
| ApplicationStatus.DecodeAllOk | models/Credit.js:103-124 | items that each cast hydrate to exactly those entries |
| ApplicationStatus.WithStatus | models/Credit.js:103-124 | saving re-encodes the status and leaves every other field as it was |
| ApplicationStatus.ReplaceLast | controller/loan.js:206-218 | rewriting the last entry in place keeps the length and every earlier entry |
| Hooks.AgentPool | controller/loan.js:106 | `User.find({role: "agent"})`: exactly the stored agents, blocked ones included |
| Hooks.RunListHook | controller/loan.js:19-26 | a scoping hook throws exactly for an anonymous caller and otherwise writes the caller into its field; no list hook responds |
| Hooks.CibilCreateOnePerUser | controller/cibil.js:10-24 | the cibil hook continues iff there is a caller with no record yet; it answers 401 without a caller; it binds `user` to the caller |
| Hooks.RenewalCreateBinds | controller/InsuranceRenewal.js:9-35 | the renewal hook throws iff there is no caller or no agent, and otherwise binds the caller and an agent of the pool |
| Hooks.PublicMediaFilter | controller/media.js:22-27 | admins and editors keep the filter; others get `createdBy` = caller and `public: true`, and every other key is kept |
| BaseController.Configure | core/BaseController.js:20-41 | every option left empty takes its default (the model name, `'admin'`, `'userId'`, the default pagination), so access and access key are never empty; the engine is user-scoped exactly when `access: 'user'` was passed |
| BaseController.ParsePagination | core/BaseController.js:56-63 | the limit is `min(parseInt(limit) \|\| default, maxLimit)`: never above `maxLimit`, and never 0 when both defaults are non-zero; `skip = (page - 1) * limit` |
| BaseController.DefaultLimit | core/BaseController.js:58-59 | a missing, non-numeric or zero limit gives `min(default, maxLimit)` |
| BaseController.FirstPage | core/BaseController.js:60-61 | a missing, non-numeric or zero page skips nothing |
| BaseController.NegativePage | core/BaseController.js:60-61 | page `-1` is not clamped: the skip is negative |
| BaseController.DeclaredFilterFields | core/BaseController.js:83-92 | exactly the declared fields with truthy values enter the filter, overriding; every other key keeps its value |
| BaseController.ScopeFilter | core/BaseController.js:76-80 | scoping stops with 401 iff the engine is `access: 'user'` and there is no caller; otherwise it writes the caller under `accessKey` and keeps the other keys |
| BaseController.ListFilter | core/BaseController.js:68-103 | a list that stops before the query has sent its response |
| BaseController.Records | core/BaseController.js:127-135 | the listed data holds each selected document with its `_id`, in order |
| BaseController.ListReply | core/BaseController.js:68-140 | every list request is answered |
| BaseController.ListScoping | core/BaseController.js:76-92 | a user-scoped list answers 401 without a caller; otherwise the caller is in the filter unless a declared field of the same name overrides it |
| BaseController.OnlyDeclaredFields | core/BaseController.js:76-97 | a filter key is the scoping key, a declared field given in the request, or `$text`; undeclared request fields never enter |
| BaseController.StopsBeforeQuery | core/BaseController.js:100-103 | a list that a hook ends or scoping refuses answers alike whatever the store holds |
| BaseController.RankedMatches | core/BaseController.js:108-122 | every listed id matches the filter; without a search they are newest first |
| BaseController.WindowKeepsOrder | core/BaseController.js:117-121 | a page of a newest-first list is newest first |
| BaseController.ListPage | core/BaseController.js:105-135 | a successful list answers with the page of ranked matches (every listed document matches the filter, newest first without a search) and `count` is the number of all matches whatever the page |
| BaseController.ListPageSize | core/BaseController.js:114-121 | the page a successful list answers holds exactly `\|limit\|` matches, or all that remain after `skip` when fewer do (all of them for limit 0) |
| BaseController.ByIdReply | core/BaseController.js:145-166 | `getById` answers 400 without an id; for an ObjectId, 404 exactly when no document has it; 200 exactly when one does, with that document and its `_id` in the reply |
| BaseController.ByIdIgnoresCaller | core/BaseController.js:145-161 | `getById` answers every caller alike, even on a scoped engine |
| BaseController.CreatePayload | core/BaseController.js:174-181 | the payload stops with 401 iff the engine is user-scoped and anonymous; when scoped it holds the caller under `accessKey` |
| BaseController.CreateEffect | core/BaseController.js:171-204 | a create that does not answer 201 leaves the store unchanged |
| BaseController.CreateAddsOne | core/BaseController.js:174-199 | a successful create appends exactly one document holding the body's fields, and the caller when scoped; an anonymous caller of a scoped engine gets 401 and nothing is stored |
| BaseController.CibilOnePerUser | controller/cibil.js:15-20 | a caller who already owns a cibil record gets 400 and nothing is stored |
| BaseController.IdFilter | core/BaseController.js:211-222 | the update and delete filter holds `_id`, and, when scoped, the caller under `accessKey` |
| BaseController.UpdateFound | core/BaseController.js:231-239 | 200 changes exactly one matching document to its updated form; anything else changes nothing; the order is kept |
| BaseController.UpdateEffect | core/BaseController.js:209-244 | every update request is answered; the customer hook runs in the given variant, and the engine passes the code as written |
| BaseController.UpdateOnlyOwn | core/BaseController.js:215-232 | a user-scoped update answers 401 with nothing changed without a caller, and otherwise changes at most the caller's own document with this id |
| BaseController.HookStopsUpdate | core/BaseController.js:226-229 | in either hook variant, a hook that answers or throws ends the update before the generic write: the store keeps every document the hook did not save |
| BaseController.DeleteEffect | core/BaseController.js:249-284 | 200 removes exactly one matching document from map and order; anything else changes nothing |
| BaseController.DeleteOnlyOwn | core/BaseController.js:255-271 | a user-scoped delete answers 401 without a caller, and otherwise removes at most the caller's own document with this id |
| BaseController.AllReply | core/BaseController.js:289-302 | `getAll` answers 200 with one record per stored id |
| BaseController.AllNewestFirst | core/BaseController.js:289-302 | `getAll` lists every stored document exactly once (a permutation of the natural order), each with its `_id`, newest first |
| BaseController.Engine.constructor | core/BaseController.js:20-22 | an engine holds its configuration, its model's collection and the users |
| BaseController.Engine.Get | core/BaseController.js:68-140 | the step-by-step list handler answers exactly `ListReply` |
| BaseController.Engine.BuildFilter | core/BaseController.js:68-97 | the step-by-step scoping, declared-field and search writes build exactly `BaseListFilter` |
| BaseController.Engine.GetById | core/BaseController.js:145-166 | the handler answers exactly `ByIdReply` |
| BaseController.Engine.Create | core/BaseController.js:171-204 | the handler's response and new store are exactly `CreateEffect` of the old store |
| BaseController.Engine.UpdateById | core/BaseController.js:209-244 | the handler's response and new store are exactly `UpdateEffect` of the old store with the customer hook as written (`AsWritten`) |
| BaseController.Engine.WriteUpdate | core/BaseController.js:231-239 | `findOneAndUpdate` and its answer are exactly `UpdateFound` |
| BaseController.Engine.DeleteById | core/BaseController.js:249-284 | the handler's response and new store are exactly `DeleteEffect` of the old store |
| BaseController.Engine.GetAll | core/BaseController.js:289-302 | the handler answers exactly `AllReply` |
| Controllers.HookScopedList | controller/cibil.js:27-37 | a list hook scoping by the caller makes an anonymous list 500; otherwise the caller is in the filter and every listed record holds the caller |
| Controllers.ApplicationListsOwned | controller/loan.js:19-26 | the customer lists of loan, credit, insurance and cibil show the caller's own records, and the agent lists the records assigned to the caller; the engine itself does not scope them |
| Controllers.PrivateMediaOwned | controller/media.js:32-39 | the private media list is 401 without a caller and otherwise filtered by `createdBy` = caller |
| Controllers.AdminAccessUnscoped | controller/InsuranceRenewal.js:6-7 | the renewal and public media engines default to `'admin'` access: their update/delete filter is `{_id}` alone |
| Controllers.RenewalCreateOutcome | controller/InsuranceRenewal.js:9-35 | renewal create: 500 with nothing stored without a caller or an agent; otherwise one record bound to the caller and a pooled agent, with no status entry the body did not bring |
| Controllers.CibilCreateOutcome | controller/cibil.js:9-25 | cibil create: 401 without a caller, 400 for a caller with a record, and a created record bound to the caller |
| CustomerUpdate.Consumed | controller/loan.js:53-87 | the hook consumes only body fields that are present |
| CustomerUpdate.Leftover | controller/loan.js:53-90 | the leftover body is the unconsumed part of the body; as written every unconsumed field stays; corrected, `status` and operator or path keys are dropped |
| CustomerUpdate.EditedStatus | controller/loan.js:42-66 | the status keeps its length and every state |
| CustomerUpdate.WithMergedDocuments | controller/loan.js:68-87 | the documents loop changes no field but `documents` |
| CustomerUpdate.Changed | controller/loan.js:53-90 | corrected, the record's status is the edited status |
| CustomerUpdate.Pre | controller/loan.js:37-40 | the hook goes on only with a stored document that matches the engine's filter |
| CustomerUpdate.PreOn | controller/loan.js:42-93 | a hook that goes on saves the changed record, which validates, and hands on the leftover body |
| CustomerUpdate.AfterGate | controller/loan.js:53-93 | past the gate, a step that goes on carries the changed record, which validates, and the leftover body of the variant |
| CustomerUpdate.CustomerGate | controller/loan.js:42-51 | a customer's update of a record whose last entry is not `missingDocuments` (or has none) gets 403 |
| CustomerUpdate.CustomerEditsLastEntry | controller/loan.js:53-66 | in either variant (as written, for a body without `status`), the saved status keeps its length and earlier entries; the last entry keeps its state, takes an array `missingDocuments` and gains the remark |
| CustomerUpdate.ProceedStatus | controller/credit.js:51-91 | corrected: the saved status is the edited status, and the leftover body sets no `status` |
| CustomerUpdate.CorrectedKeepsStates | controller/loan.js:65-66 | corrected, no state of any entry changes through either of the two writes |
| CustomerUpdate.Proceeds | controller/credit.js:40-91 | on a record waiting for documents the hook saves the changed record whenever it validates |
| CustomerUpdate.StatusPassesThrough | controller/loan.js:89-90 | as written, a customer body `status` of one `disbursed` entry is saved as the record's only state |
| CustomerUpdate.AsWrittenKeepsStatus | controller/loan.js:89-90 | as written, a body `status` lands on the record unchanged |
| CustomerUpdate.StatusSurvivesAssign | controller/loan.js:65-90 | the edited status survives `Object.assign` when the leftover body holds no `status` (always, corrected) |
| CustomerUpdate.SecondWriteRedundant | controller/loan.js:89-93 | corrected: the engine's `findOneAndUpdate` after the hook's save changes nothing |
| CustomerUpdate.EditLastEntry | controller/loan.js:53-66 | the statement-by-statement edits equal `EditedStatus` and delete the consumed fields; they fail exactly where an absent last entry is dereferenced |
| CustomerUpdate.RunPre | controller/loan.js:37-94 | for either variant, the hook's effect on the collection and its result are exactly `Pre`; the engine runs it as written |
| CustomerUpdate.RunOn | controller/credit.js:36-92 | for either variant, the gate, the edits and the save on the found record equal `PreOn` |
| CustomerUpdate.Edit | controller/loan.js:53-90 | the in-memory edits equal `Changed` and `Leftover` of the variant: as written every unconsumed body field stays for `Object.assign` |
| CustomerUpdate.EditAndSave | controller/loan.js:53-93 | the edits and the validating save after the gate equal `AfterGate`, and only that record changes |
| CustomerUpdate.EditStep | controller/loan.js:53-90 | the in-memory step equals `AfterGate` on the stored record |
| CustomerUpdate.MergeDocuments | controller/loan.js:68-87 | the `documents` step writes the merged documents and takes `documents` out of the leftover |
| CustomerUpdate.DropKeys | controller/loan.js:89-90 | the leftover handed on is exactly `Leftover` of the variant |
| DocumentMerge.CustomerMerged | controller/loan.js:69-87 | the merged documents have both key sets; untouched keys keep their values |
| DocumentMerge.SpreadEach | controller/loan.js:193-196 | each incoming key has its spread |
| DocumentMerge.AgentMerged | controller/loan.js:190-199 | the merged documents have both key sets; untouched keys keep their values |
| DocumentMerge.MergeAsCustomer | controller/loan.js:69-87 | the `for…in` loop computes `CustomerMerged` |
| DocumentMerge.MergeAsAgent | controller/credit.js:189-198 | the `for…in` loop computes `AgentMerged` |
| DocumentMerge.CustomerValueShape | controller/credit.js:67-85 | an object value overrides the old sub-fields it names and keeps the others; any other value replaces the entry |
| DocumentMerge.CustomerMergeIdempotent | controller/loan.js:69-87 | the customer merge applied twice equals once |
| DocumentMerge.AgentMergeIdempotent | controller/loan.js:190-199 | the agent merge applied twice equals once |
| DocumentMerge.MergesDifferOnStrings | controller/loan.js:74-83 | a string value replaces the entry in the customer merge but becomes an object of characters in the agent merge |
| Applications.ApplicationData | controller/loan.js:114-124 | the created data has `user` = caller and `agent` = the pick (overriding the body), one seeded entry, and the other body fields |
| Applications.CreateEffect | controller/loan.js:100-145 | every create request is answered |
| Applications.CreateSeedsOnePending | controller/credit.js:99-122 | 401 without a caller and 503 without agents, with nothing stored; otherwise one record bound to the caller and a pooled agent, with exactly one `pending` entry with one remark |
| Applications.CreateApplication | controller/insurance.js:33-77 | the handler's response and new store are exactly `CreateEffect` |
| Applications.AgentEditsLastEntry | controller/loan.js:202-227 | a non-empty status keeps its length and earlier entries, and only the last entry changes; an empty status gets exactly one entry with `state \|\| "pending"` |
| Applications.HistoryStaysShort | controller/insurance.js:118-135 | a status of at most one entry has exactly one after an agent update |
| Applications.AgentClaims | controller/loan.js:180-230 | the saved record has `agent` = the acting agent and every other unhandled body field verbatim |
| Applications.Notifications.Create | controller/loan.js:238-244 | a notification is appended to the log |
| Applications.AgentNotices | controller/loan.js:236-257 | an agent update creates at most two notifications |
| Applications.NoticesIff | controller/credit.js:231-252 | a state notification exists iff the state is given and differs from the old one; a missing-documents notification exists iff a non-empty array is given; they come in that order |
| Applications.FirstPendingNotice | controller/insurance.js:141-149 | on an empty status, `pending` notifies nobody for a loan but notifies "from pending → pending" for insurance |
| Applications.InsuranceFirstNotice | controller/insurance.js:141-149 | an insurance record with no entry notifies on any given state, saying "from pending" |
| Applications.AgentUpdateEffect | controller/loan.js:175-269 | an agent update is answered and never adds or removes a record |
| Applications.AgentRejects | controller/insurance.js:107-114 | a missing id gives 400 and an unknown id 404, both with no change and no notification |
| Applications.UpdateByAgent | controller/credit.js:174-264 | the handler's response, new store and new notification log are exactly `AgentUpdateEffect` |
| Applications.Edit | controller/loan.js:186-230 | the in-memory edits equal `AgentChanged` |
| Applications.EditStatus | controller/insurance.js:118-135 | the in-place status edit equals `AgentEditedStatus` |
| Applications.Notify | controller/loan.js:236-257 | the notifications appended, and whether the step throws, are exactly `AgentNotices` |
| Admin.Selected | controller/admin.js:176-195 | an absent type or `all` selects the three kinds; any other type selects exactly the kind with that tag |
| Admin.AdminFilter | controller/admin.js:148-153 | the filter holds only `user`, `agent` and `status.state`; it fails exactly on an id that is not an ObjectId |
| Admin.Within | controller/admin.js:157-172 | exactly the ids whose documents lie in the date window |
| Admin.Found | controller/admin.js:174-195 | every id found is stored, matches and lies in the window |
| Admin.TaggedItem | controller/admin.js:197-201 | `{...doc, type}`: an item carries its kind's `type` tag, its `_id` and every other field of the document, and nothing else |
| Admin.Tagged | controller/admin.js:197-201 | one tagged item per found id, in order |
| Admin.Part | controller/admin.js:176-201 | an unselected kind contributes nothing; a selected one all its matches, each tagged with its kind |
| Admin.SliceIndex | controller/admin.js:210 | an index within the list is kept, a larger one becomes the length, a negative one counts back from the end (`n + i`), and one before the start becomes 0 |
| Admin.Slice | controller/admin.js:208-210 | `slice(start, end)` holds exactly `to - from` items for the resolved bounds (none when `to <= from`), item i being input item `from + i`; within bounds it is `xs[start..end]` |
| Admin.TotalPages | controller/admin.js:216 | `ceil(total / limit)`: for a positive limit, the fewest pages that hold every item |
| Admin.AdminPage | controller/admin.js:205-206 | the limit is never 0 |
| Admin.AllLoansReply | controller/admin.js:146-221 | every listing request is answered |
| Admin.AllLoansTagged | controller/admin.js:197-201 | every listed item carries the tag of a selected kind |
| Admin.AllLoansTotal | controller/admin.js:197-207 | the total is the sum of the selected kinds' match counts |
| Admin.PageOfRanked | controller/admin.js:203-216 | a page is a newest-first contiguous run of the ranking; for a positive limit and start it holds exactly `min(limit, total - start)` items (none past the end), and the page count covers the total; a negative limit from 0 drops the last `\|limit\|` items |
| Admin.AllLoansPage | controller/admin.js:203-216 | the reply is 200 with the page of the newest-first ranking, the total and the page count |
| Admin.AllLoansSelection | controller/admin.js:176-195 | a kind's tag lists that kind alone; an unknown type lists nothing |
| Admin.ToLower | controller/admin.js:246 | lower-casing leaves no capital letter and keeps every other character |
| Admin.DispatchIgnoresCase | controller/admin.js:246-258 | tags that differ only in letter case dispatch alike, and each kind's tag dispatches to it |
| Admin.Dispatch | controller/admin.js:241-258 | dispatch goes on iff id and type are given and the type names a kind, and then uses that kind; otherwise 400 |
| Admin.ByTypeReply | controller/admin.js:323-362 | a bad dispatch gives 400; for an ObjectId id, 404 exactly when the picked kind has no such document, and 200 exactly when it has, with that document in the reply |
| Admin.AdminUpdateEffect | controller/admin.js:236-281 | every admin update request is answered |
| Admin.AdminDeleteEffect | controller/admin.js:283-321 | every admin delete request is answered |
| Admin.AdminDeleteRemoves | controller/admin.js:283-321 | for an ObjectId id, an unknown id gives 404 with nothing changed; otherwise 200 with the deleted document in the reply, the document leaves that kind's map and order, and the other kinds are untouched |
| Admin.BadDispatchTouchesNothing | controller/admin.js:236-258 | a missing id or type, or an unknown type, gives 400 to get, update and delete, with no store change |
| Admin.AdminUpdateSets | controller/admin.js:260-275 | an unknown id gives 404 with nothing changed; otherwise only that record changes, every body field but `_id` and the timestamps is written as given (no gate, no remark), every field the body does not name is kept, and other kinds are untouched |
| Admin.Toggled | controller/admin.js:374 | `isBlocked` becomes the negation of its truthiness; no other field changes |
| Admin.Pick | controller/admin.js:379-385 | the reply carries exactly the picked fields that exist |
| Admin.ToggleEffect | controller/admin.js:364-390 | a toggle is answered and adds or removes no user; the save validates the whole user |
| Admin.ToggleRefusals | controller/admin.js:367-375 | an unknown user gives 404, and a user that fails save validation (a stored `"admin"` role) gives 500; neither changes any user |
| Admin.ToggleSaves | controller/admin.js:370-386 | a stored user whose toggled form validates gets 200 and is saved toggled |
| Admin.ToggleKeepsEnums | controller/admin.js:374-375 | toggling changes no enumerated field, so a user that validated still validates |
| Admin.ToggleTwiceRestores | controller/admin.js:364-375 | for a user whose enumerated fields validate, toggling answers 200 and negates `isBlocked`; toggling twice restores `isBlocked` and every other field of the user, and other users are untouched |
| Admin.AdminPanel.CollectionOf | controller/admin.js:245-258 | each kind dispatches to one of the three application collections |
| Admin.AdminPanel.GetAllLoans | controller/admin.js:146-221 | the handler answers exactly `AllLoansReply` |
| Admin.AdminPanel.GetLoanById | controller/admin.js:323-362 | the handler answers exactly `ByTypeReply` |
| Admin.AdminPanel.UpdateLoanById | controller/admin.js:236-281 | the handler's response and new collections are exactly `AdminUpdateEffect` |
| Admin.AdminPanel.DeleteLoanById | controller/admin.js:283-321 | the handler's response and new collections are exactly `AdminDeleteEffect` |
| Admin.AdminPanel.ToggleBlockUser | controller/admin.js:364-390 | the handler's response and new user collection are exactly `ToggleEffect`, save validation included |
| Auth.NewConfig | core/AuthController.js:11-15 | the login type, identifier field and OTP limit defaults; the limit is never 0 |
| Auth.FindBy | core/AuthController.js:117-120 | `findOne({field: v})`: the first account of the natural order holding `v` (no earlier one holds it), or none when no account holds it |
| Auth.Profile | core/AuthController.js:62-71 | a new account takes exactly the non-reserved body fields |
| Auth.RoleOf | models/User.js:30-34 | the default `customer` fills only a body without a role; a role the enum accepts, `null` included, is stored as given |
| Auth.NewProfile | models/User.js:39-78 | a new account keeps every non-reserved body field, gains `status: 'offline'` and `wallet: 0` only where the body has no such field, and validates exactly when the body's fields do |
| Auth.BodyPassword | core/AuthController.js:197 | a string `password` in the body becomes the new account's password as sent; otherwise there is none |
| UserSchema.EnumsValidExactly | models/User.js:23-85 | save validation fails exactly on an enumerated path holding an unlisted value; a stored `"admin"` role fails it; writing a path that is not enumerated neither breaks nor repairs it |
| Auth.Fresh | core/AuthController.js:62-75 | a new account has the body's profile with the schema defaults, the role `RoleOf` gives, the given password and OTP list, is unverified, is blocked only when `isBlocked` casts to true, and passes save validation; it is refused exactly when the role or another enumerated field is not listed or `isBlocked` does not cast |
| Auth.Shown | core/AuthController.js:86-90 | the reply's user object holds no password, otp, isBlocked or isVerified, but holds `_id`, the role (`null` when cleared) and the profile |
| Auth.OtpShown | core/AuthController.js:175-176 | the OTP-login user object holds no otp or password but keeps isVerified and isBlocked |
| Auth.Full | core/AuthController.js:302-304 | the reset reply's document carries the OTP list and the password hash |
| Auth.LoginReply | core/AuthController.js:103 | with the OTP login type `login` is `otpLogin` |
| Auth.RegisterRules | core/AuthController.js:43-71 | no identifier gives 400; an existing identifier always gives 400 and deletes the account iff it was unverified; a role loosely equal to `"admin"` or `"Admin"` (an array `["admin"]` too) gives 400 with nothing stored; a new account is unverified with exactly one OTP and is the one its identifier finds |
| Auth.RegisterStores | core/AuthController.js:62-75 | a registration that changes the accounts adds the fresh account under the new id and nothing else |
| Auth.PasswordLoginOrder | core/AuthController.js:113-143 | checks run in the order identifier, account, verified, blocked, password; 200 iff all pass, with no secret in the reply |
| Auth.OtpLoginAdminsOnly | core/AuthController.js:163-166 | only admins must be verified; 200 implies the last code matched and the account is not blocked |
| Auth.Recent | core/AuthController.js:204-205 | exactly the codes created within the last 60 s |
| Auth.Throttled | core/AuthController.js:203-215 | 429 iff the list has exactly `otpLimit` codes, all recent; otherwise it keeps a suffix that stays under the limit |
| Auth.RecentSuffix | core/AuthController.js:204-205 | in a chronological list, the recent codes are a suffix |
| Auth.OlderThanLast | core/AuthController.js:204-205 | codes before a last code that is older than a minute are not recent either |
| Auth.TrimKeepsRecent | core/AuthController.js:211-214 | at the limit, trimming drops exactly the codes older than a minute |
| Auth.SendOtpLimited | core/AuthController.js:203-209 | an existing account gets 429 with nothing changed iff its list holds `otpLimit` recent codes |
| Auth.SendOtpAppends | core/AuthController.js:211-235 | a send that answers 200 to an existing account changes only that account's list; the new code is last; the list stays within the limit and stays chronological |
| Auth.ThrottledAppend | core/AuthController.js:211-232 | appending after the throttle keeps the list within the limit and chronological |
| Auth.SendOtpCreates | core/AuthController.js:191-201 | an unknown identifier gives 404 for the password login type; with the OTP login type it gets a new account holding only the new code, the body's fields with the schema defaults, its role and a body `password` as sent, unhashed |
| Auth.SendOtpStoresFresh | core/AuthController.js:196-198 | a send that creates an account answers 200 and stores the fresh account with only the new code under the new id, listed last |
| Auth.SendOtpStoresNothing | core/AuthController.js:193-201 | a send to an unknown identifier that creates no account changes nothing, and answers 404 for the password login type |
| Auth.VerifyOtpRules | core/AuthController.js:254-270 | an empty list gives 400; a mismatch gives 400 with nothing changed; a matching code on an account that fails save validation gives 500 with nothing changed; 200 iff the last code matches and the account validates, and it then verifies, unblocks and empties the list, touching nothing else |
| Auth.VerifiedCodeIsSpent | core/AuthController.js:256-260 | a verified code cannot verify again |
| Auth.UnsavableAccountFrozen | core/AuthController.js:185-275 | for an account that fails save validation (any stored admin), `sendOtp` and `verifyOtp` never answer 200 and change nothing, and an unverified admin cannot log in by OTP |
| Auth.ResetRules | core/AuthController.js:285-312 | 200 iff every field is given and the last code matches; only the password changes, the code stays usable, and the reply carries the stored document |
| Auth.GetUserReply | core/AuthController.js:314-332 | 401 without a caller; 200 iff the caller's account exists, with it shown without secrets |
| Auth.CastBool | models/User.js:50-57 | Mongoose's boolean cast keeps a boolean, casts to true only from a truthy value, and never casts an array or object |
| Auth.CastOtp | models/User.js:40-49 | `null` and `[]` cast to no codes; a cast list has one entry per item, each with the item's code and date; anything but `null` or an array does not cast |
| Auth.CastOtpList | models/User.js:40-49 | casting the stored form of an OTP list gives the list back (round trip) |
| Auth.OtpList | core/AuthController.js:302-304 | the stored form of an OTP list has one `{otp, createdAt}` object per code, in order |
| Auth.Applied | core/AuthController.js:356 | `findByIdAndUpdate` with validators: the update applies iff a written role is an enum value or `null`, the enumerated fields validate and isVerified, isBlocked and otp cast; it writes the plain keys and `$set`'s, casts the booleans and the OTP list, keeps every field the update does not write |
| Auth.UpdateUserSucceeded | core/AuthController.js:334-360 | a 200 update had a caller, passed the gate and applied: the new accounts are the old ones with the caller's replaced by the applied one, shown without secrets |
| Auth.RestrictedByTruthiness | core/AuthController.js:341-361 | 400 iff otp, isVerified, isBlocked or role is truthy in the body, with nothing changed; a 200 changes only the caller's account, shows it without secrets, stores a body isBlocked or isVerified as false, clears the role when the body's role is `null` (no other falsy role saves), and otherwise changes the role only through a `$set` |
| Auth.TopLevelWrites | core/AuthController.js:341-356 | past the written gate, a body isBlocked or isVerified is stored false, a body role can only be `null` and clears the role, and otherwise the role changes only through `$set` |
| Auth.PasswordWithoutCurrent | core/AuthController.js:345-356 | without `currentPassword`, an update that applies answers 200 and stores the new password exactly as sent, unhashed |
| Auth.SetBypassesGate | core/AuthController.js:341-356 | as written: an unverified customer who sends `{$set: {role: "agent", isVerified: true}}` gets 200 and becomes a verified agent |
| Auth.EffectiveGateKeepsPrivileges | core/AuthController.js:341-356 | corrected (the gate refuses an update that writes a restricted field at all, `$set` included): it refuses every body the written gate refuses, and a 200 keeps the role, the verification, the block and the OTP list |
| Auth.TopLevelWithin | core/AuthController.js:341 | corrected: a body with a truthy restricted field writes that field, so the effective gate refuses it too |
| Auth.EffectiveWrites | core/AuthController.js:341-356 | corrected: an update that passes the effective gate and applies keeps the role, isVerified, isBlocked and the OTP list |
| Auth.AuthorizeRoleRules | core/AuthController.js:419-438 | no token gives 401; a single role must equal the caller's; a list must contain it; anything else gives 403 |
| Auth.AuthController.constructor | core/AuthController.js:5-16 | the controller takes the configured defaults and the given users |
| Auth.AuthController.Register | core/AuthController.js:39-100 | the handler's response and new users are exactly `RegisterEffect`, and the collection stays consistent |
| Auth.AuthController.Login | core/AuthController.js:102-148 | the handler answers exactly `LoginReply` |
| Auth.AuthController.OtpLogin | core/AuthController.js:150-183 | the handler answers exactly `OtpLoginReply` |
| Auth.AuthController.SendOtp | core/AuthController.js:185-240 | the in-place splice and push, and the validating save, give exactly `SendOtpEffect` |
| Auth.AuthController.ForgotPassword | core/AuthController.js:281-283 | `forgotPassword` has exactly the effect of `sendOtp` |
| Auth.AuthController.VerifyOtp | core/AuthController.js:242-275 | the handler's effect, validating save included, is exactly `VerifyOtpEffect` |
| Auth.AuthController.ResetPassword | core/AuthController.js:285-312 | the handler's effect is exactly `ResetEffect` |
| Auth.AuthController.GetUser | core/AuthController.js:314-332 | the handler answers exactly `GetUserReply` |
| Auth.AuthController.UpdateUser | core/AuthController.js:334-366 | the handler's effect is exactly `UpdateUserEffect` with the gate as written (`TopLevel`) |

## Left out

- core/ImageWordPressController.js (upload parsing, image transcoding, calls to a WordPress media API) is not part of this model.
- `authenticateToken` (core/AuthController.js:369-413): JWT verification is an opaque oracle; its outcome is the `user` of a request. JWT signing is a `token` parameter.
- bcrypt hashing and comparison are opaque: a hash and a comparison verdict arrive as parameters.
- `logout` (core/AuthController.js:277-279) answers a fixed 200 and touches no state.
- Randomness, the clock and dates are parameters: `pick`, the random OTP, the generated ObjectId and `now`.
- The admin date window is a parameter. The parsing of `startDate`/`endDate` and the local end-of-day arithmetic (controller/admin.js:157-170) are not modelled.
- Store-side query semantics are left out:
  - `populate` and `select` projections;
  - `$text` scoring, so a search lists matches in natural order;
  - the array-element matching of `"status.state"`, and the regex name search;
  - casting of query values;
  - unique indexes.
  - Filter keys that are operators or dotted paths match every document.
- Mongoose validation is modelled for the status `state` enum on `save()`/`create()`, for the enumerated user paths (`role`, `gender`, `status`, `statusRealtion`) on every user `save()` and on `updateUser`'s validated update, and for the boolean and OTP-list casts of `updateUser`. Other validators, strict-mode dropping of undeclared fields, and casting of other field types (`dob`, `wallet`, `zip`) are left out.
- UserSchema.EnumsValid: checks only the enumerated paths; a value of another path that Mongoose would fail to cast (a non-date `dob`, a non-numeric `wallet`) does not fail validation here.
- A status entry's `updatedAt` written by the agent handlers is dropped: the schema has no such field.
- The countDocuments endpoints (controller/loan.js:275-416, controller/admin.js:44-135), `getAgents` and the notification aggregations are not modelled. They are reads with floating-point percentages.
- The `register`, `login` and `verifyOtp` config `pre`/`post` hooks are not modelled: no controller here configures them. No controller configures a `post` hook or a `deleteById` hook on the CRUD engine either.
- Notification creation is modelled as an append to a log. A failing `Notification.create` is not modelled, except where the notification step itself throws.
- Exception message texts (`error: err.message`) are not modelled: every `catch` reply carries a fixed body.
- Concurrency between requests is not modelled; each request runs alone.
- Store.SetOf: an update document applies its plain top-level keys and the contents of `$set` only. A plain key with a dot (`"status.0.state"`) is ignored, a dotted key inside `$set` is written as a literal top-level field, and every other operator (`$unset`, `$inc`, `$push`, …) is ignored, whereas MongoDB sets nested paths and applies those operators. This affects the engine's `findOneAndUpdate` (core/BaseController.js:231) and `updateUser`.
- Admin.AdminUpdateSets: writes every body key as a top-level field; MongoDB applies a dotted key inside `{ $set: body }` as a nested path (so `{"status.0.state": "disbursed"}` rewrites a nested state) and rejects a key starting with `$`. Neither is modelled.
- Auth.FindBy: compares the stored value with the body value as JSON values. Mongoose casts the query value, and reads an object value such as `{"$ne": null}` as a query operator, so `findOne` then returns an arbitrary account holding the field (`register` would delete it when unverified); operator values are not modelled.
- Auth.Applied: an OTP item without `createdAt` does not cast, whereas Mongoose fills in `Date.now`; a `null` otp reads back as no codes; a non-string `password` is stored as no password, whereas Mongoose would cast a number to its text.
- Auth.Fresh: a `null` `isBlocked` in the body is read as false, whereas Mongoose stores null; the schema's timestamps are not modelled.
- Auth.BodyPassword: a number or boolean `password` is stored as no password, whereas Mongoose would store its text, and an array or object one does not make the save fail as Mongoose's cast error would.
- Auth.AuthController.Register: an existing account's `_id` in the body, and the user schema's timestamps, are not modelled.
- JsNumber.ParseInt: the result is an exact integer. JavaScript's `parseInt` returns a double, so a digit string beyond 2^53 is rounded and a very long one gives `Infinity`; the page and skip arithmetic is double arithmetic too.
- Http.Request: route parameters and query values are strings. Express's query parser also gives arrays (`?page=1&page=2`) and objects (`?loanType[$ne]=x`), which reach `parseInt`, the declared filter fields and the admin filter; those shapes are not modelled.
- Applications.MissingNoticeOf: an object `missingDocuments` whose `length` is a string (`"5" > 0` is true in JavaScript) is treated as having no length, so it yields no notice where the source would throw.
- Admin.ToLower: only ASCII letters are lower-cased; `toLowerCase` on other scripts is not modelled.

## Findings

| source | as written | input that shows it | evidently intended | confidence | as-written member | corrected member |
|---|---|---|---|---|---|---|
| controller/loan.js:89-90 | the customer hook deletes only the fields it handled, then assigns the rest of the body onto the record, so a body `status` replaces the whole status array; the same holds in controller/credit.js:88 | a customer updates a loan waiting for documents with body `{status: [{state: "disbursed"}]}`; the record is saved with `disbursed` as its only state | customers cannot change state (the comment at controller/loan.js:65), so `status` should not pass through | not executed; medium | CustomerUpdate.StatusPassesThrough | CustomerUpdate.CorrectedKeepsStates |
| core/AuthController.js:341-356 | the restricted-field gate tests only the body's own properties, but `findByIdAndUpdate` also applies the body's `$set` operator, which the gate never opens | a signed-in customer who is not verified sends `{"$set": {"role": "agent", "isVerified": true}}`; the gate passes, `agent` is in the role enum, and the account becomes a verified agent with 200 | a caller cannot change `otp`, `isVerified`, `isBlocked` or `role` through their own profile update, however the update is spelt: the corrected gate refuses any update that writes one of them | not executed; high | Auth.SetBypassesGate | Auth.EffectiveGateKeepsPrivileges |
