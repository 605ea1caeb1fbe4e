# Marine licensing backend: exemption submission, listing, ownership and auth

This project models the core of the marine licensing backend, a hapi service
that stores marine-licence exemption applications in MongoDB. The parts
modelled are these:

- **Submission** (`SubmitExemption`). `POST /exemption/submit` loads a draft
  exemption. It refuses the draft with 409 if it already has a reference, and
  with 400 (naming the missing sections) if its task list is not complete.
  Otherwise it mints a reference, sets `applicationReference`, `submittedAt`
  and status CLOSED on the record, and, when the Dynamics sync is enabled,
  appends a PENDING item to `exemption-dynamics-queue` and drains the queue.
  Boom errors reach the caller as they are. Any other error becomes a 500
  "Error submitting exemption: <message>".
  - `SubmitSpec` states the whole outcome of one call: the answer, the two
    collections as the handler's own writes leave them (the state the queue
    drain starts from), and whether the reference generator was called.
  - The class `ExemptionsDb` holds the two collections as a map and a sequence.
    Its method `Submit` performs the handler step by step, and its contract
    says it agrees with `SubmitSpec`.
- **Listing** (`GetExemptions`). Every record the query found is projected to a
  summary. `type` defaults only when it is nullish, and the other optional
  properties appear only when truthy. The summaries are sorted DRAFT, CLOSED,
  then the rest. `Array.prototype.sort` is stable, so the result must be the
  summaries grouped by status with the query order kept in each group.
  `ListExemptions` is proved equal to that grouping.
- **Ownership guard** (`AuthorizeOwnership`). With auth enabled, a request goes
  on only when the exemption named in the path or payload exists and its
  `contactId` is the caller's. Both refusals are 404s.
- **JWT plugin** (`Auth`). It validates the token, picks the first key of the
  JWKS document, admits only RS256, and uses auth mode `required` or `try`.
- **Audit fields** (`MongoDb`). The pre-handler replaces the payload of every
  authenticated non-GET request: create fields for POST, update fields for
  anything else. The class `Request` carries the payload the extension
  overwrites.
- **Site-details schema** (`SiteDetails`). `coordinatesType` decides which
  properties are checked and which are forbidden. `Validate` follows joi's
  first-error order. `Conforms` is the permit/forbid table written out on its
  own, and `ValidateIffConforms` proves the two agree.

Things the model makes explicit:

- **Concurrent submissions both succeed.** The update that closes a record is
  keyed on `_id` only. A second submission that completes between this one's
  load and its update is silently overwritten: both callers get 200 with
  different references, and the record keeps only the later writer's
  (`InterleavedSubmissionsBothSucceed`). A record deleted in that window is
  reported as "Exemption not found during update" (`LostUpdateIsNotFound`).
  The method `ExemptionsDb.Interleave` performs those writes of other requests
  inside `Submit`, between `FindOne` and `UpdateOne`.
- **A failed enqueue leaves the record closed.** The queue insert happens after
  the record is closed. If the insert fails, the caller gets a 500 while the
  record already holds its reference and status CLOSED, with no queue item
  (`FailedEnqueueLeavesRecordClosed`). When the reference is non-empty, a retry
  whose load sees that write gets a 409 and changes nothing, so the queue item
  is never created (`RetryAfterFailedEnqueueIsConflict`).
- **Reads go to a secondary.** The client is configured with
  `readPreference: 'secondary'`, so the load may read a copy that lags the
  primary, while the update always writes the primary. `Environment.secondary`
  is that lagging copy. A retry whose load reads a copy from before the first
  submission passes the checks again: it answers 200 with a second reference
  and overwrites the first one on the record (`StaleLoadMintsSecondReference`).
  The 409 of `ResubmissionIsConflict` is only guaranteed once the write has
  reached the copy the load reads. A record the secondary still shows but the
  primary no longer holds is a 404 "Exemption not found during update"
  (`LostUpdateIsNotFound`).
- **Drain errors reach the submitter.** The code awaits the queue drain inside
  the handler's `try`, so its errors reach the submitter: a Boom error as it
  is, anything else as a 500 (`drainError` in `Environment`,
  `StepErrorsAreRethrown`). A failed drain
  therefore fails a submission whose record is already CLOSED and whose queue
  item is already stored.

The environment is expressed through parameters:
- The clock is the parameter `now`.
- The reference generator is an object whose next answer is fixed in advance.
- `createTaskList` is a function parameter.
- Database failures, concurrent writes and the lagging secondary are fields of `Environment`.
- The leaf joi schemas are predicates.
- The JWKS fetch and `jwkToPem` are given as their results.
- `mongo-audit.js` is given as two functions.

## Model

| member | source | states |
|---|---|---|
| Js.Truthy | src/api/exemptions/controllers/submit-exemption.js:37 | definition of JavaScript truthiness on the modelled values; its consequences are stated by AlreadySubmittedIsConflict, OptionalFieldsOnlyWhenTruthy and ValidateToken |
| Js.StrictEquals | src/api/exemptions/helpers/authorize-ownership.js:25 | definition of `===` on the modelled values (primitives by value, objects, Dates and ObjectIds by identity, so never equal); its consequences are stated by AuthorizeOwnership.Authorize, ForeignRecordIsNotFound and NonPrimitiveOwnerIsNeverMatched |
| Js.Nullish | src/api/exemptions/controllers/get-exemptions.js:21 | definition of the `??` test (null or undefined); its consequence is stated by TypeDefaultsOnlyWhenNullish |
| Js.Stored | src/api/exemptions/controllers/submit-exemption.js:62-73 | a value written to MongoDB is never undefined: undefined is stored as null and every other value as it is |
| Js.ParseObjectId | src/api/exemptions/controllers/submit-exemption.js:31 | an id parses exactly when it is a string of 24 hex digits of either case, and then names the ObjectId whose digits are the input's digits lower-cased; otherwise there is no ObjectId and the caller throws |
| Js.ParsePrintedObjectId | src/api/exemptions/controllers/get-exemptions.js:20 | parsing the printed form of an ObjectId (`_id.toString()`, as the listing returns it) gives back that ObjectId, so an id from the listing is accepted by `createFromHexString` at submit-exemption.js:31 |
| Errors.Rethrow | src/api/exemptions/controllers/submit-exemption.js:102-107 | a Boom error is rethrown unchanged; any other error becomes a 500 whose message is the prefix followed by the error's message |
| SubmitExemption.IncompleteTasks | src/api/exemptions/controllers/submit-exemption.js:43-45 | the result holds exactly the names of the sections whose status is not "COMPLETED", and is empty iff every section is COMPLETED |
| SubmitExemption.IncompleteTasksAppend | src/api/exemptions/controllers/submit-exemption.js:43-45 | the filter distributes over concatenation, so missing sections keep task-list order |
| SubmitExemption.Join | src/api/exemptions/controllers/submit-exemption.js:50 | joining no part gives "" and joining one part gives that part |
| SubmitExemption.JoinSnoc | src/api/exemptions/controllers/submit-exemption.js:50 | joining one more part appends the separator and that part |
| SubmitExemption.SubmitSpec | src/api/exemptions/controllers/submit-exemption.js:23-108 | definition of one submission's outcome; its properties are the SubmitExemption lemmas below, and ExemptionsDb.Submit is proved to agree with it |
| SubmitExemption.MissingExemptionIsNotFound | src/api/exemptions/controllers/submit-exemption.js:29-35 | a well-formed id naming no record in the copy the load reads gives 404 "Exemption not found", with no write and no reference generated |
| SubmitExemption.AlreadySubmittedIsConflict | src/api/exemptions/controllers/submit-exemption.js:37-39 | a record with a truthy reference gives 409, with no write and no reference generated |
| SubmitExemption.IncompleteIsBadRequest | src/api/exemptions/controllers/submit-exemption.js:41-52 | any section not COMPLETED gives 400 naming the missing sections ", "-joined in task-list order, with no write and no reference generated |
| SubmitExemption.GeneratorCalledOnlyAfterChecks | src/api/exemptions/controllers/submit-exemption.js:29-58 | the reference generator is called iff the record loads, has no reference and is complete; otherwise the call fails and nothing changes |
| SubmitExemption.GeneratorFailureChangesNothing | src/api/exemptions/controllers/submit-exemption.js:54-58 | a generator failure writes nothing; a Boom error comes back as it is, any other error as a 500 with the prefixed message |
| SubmitExemption.SuccessClosesRecord | src/api/exemptions/controllers/submit-exemption.js:54-101 | a success answers 200 with the reference and time, and the record then holds that reference, submittedAt = now, status CLOSED and the payload's updatedAt and updatedBy (stored, so undefined becomes null); every other field of the record is kept from the record the update matched, and no other record changes |
| SubmitExemption.SuccessEnqueuesPendingItem | src/api/exemptions/controllers/submit-exemption.js:79-91 | with the sync enabled a success appends exactly one PENDING item with retries 0 and the reference; disabled, the queue is untouched |
| SubmitExemption.LostUpdateIsNotFound | src/api/exemptions/controllers/submit-exemption.js:75-77 | a record missing from the primary when the update runs (deleted after the load, or read from a lagging secondary) gives 404 "Exemption not found during update" and nothing is enqueued |
| SubmitExemption.FailuresAreBoomErrors | src/api/exemptions/controllers/submit-exemption.js:102-107 | every failure is a 400/404/409 of the handler, a Boom error thrown by a step, or a 500 whose message starts with "Error submitting exemption: "; which error each step gives is stated by StepErrorsAreRethrown |
| SubmitExemption.StepErrorsAreRethrown | src/api/exemptions/controllers/submit-exemption.js:29-107 | a failing findOne gives a 500 "Error submitting exemption: <message>" with nothing written; a failing updateOne the same, with nothing enqueued; a drain failure after the update and the enqueue is rethrown, a Boom error unchanged and any other as the prefixed 500, with the record CLOSED and the PENDING item stored |
| SubmitExemption.ResubmissionIsConflict | src/api/exemptions/controllers/submit-exemption.js:37-39 | submitting again after a success with a non-empty reference gives 409, changes nothing and generates no second reference, whenever the second load sees the first write |
| SubmitExemption.StaleLoadMintsSecondReference | src/common/helpers/mongodb.js:41-45 | with reads on a secondary that has not seen the first submission, a retry answers 200 with a second reference and the record's reference is replaced by it |
| SubmitExemption.SubmitKeepsReferenceInvariant | src/api/exemptions/controllers/submit-exemption.js:62-73 | a submission keeps "a record has a reference iff its status is CLOSED" for every record, provided the minted reference is non-empty and a concurrent rewrite itself leaves the record satisfying that invariant |
| SubmitExemption.InterleavedSubmissionsBothSucceed | src/api/exemptions/controllers/submit-exemption.js:62-77 | when a second submission completes between load and update, both callers get 200 with their own reference and the record keeps only the reference of the update that ran last |
| SubmitExemption.FailedEnqueueLeavesRecordClosed | src/api/exemptions/controllers/submit-exemption.js:79-91 | a rejected queue insert, with the record still on the primary, gives a 500 while the record is already CLOSED with its reference and no queue item exists |
| SubmitExemption.RetryAfterFailedEnqueueIsConflict | src/api/exemptions/controllers/submit-exemption.js:37-39 | after an enqueue failure with a non-empty reference, a retry whose load sees the closed record gives 409, changes nothing and generates no reference |
| SubmitExemption.ReferenceGenerator.Generate | src/api/exemptions/controllers/submit-exemption.js:54-58 | each call answers the generator's outcome and records the requested category |
| SubmitExemption.ExemptionsDb.FindOne | src/api/exemptions/controllers/submit-exemption.js:29-31 | answers the record stored under the id in the copy it reads (the lagging secondary when there is one, else the primary), or nothing; a record read from the primary carries the `_id` it was looked up by |
| SubmitExemption.ExemptionsDb.Interleave | src/api/exemptions/controllers/submit-exemption.js:62-77 | the writes of other requests between the load and the update: the primary becomes AtUpdate of the old one (the record deleted, rewritten if it still exists, or untouched), and records stay stored under their own `_id` |
| SubmitExemption.ExemptionsDb.UpdateOne | src/api/exemptions/controllers/submit-exemption.js:62-73 | merges the $set fields into the record with that id and reports one match; with no such record changes nothing and reports zero |
| SubmitExemption.ExemptionsDb.InsertOne | src/api/exemptions/controllers/submit-exemption.js:80-88 | appends the item to the queue collection |
| SubmitExemption.ExemptionsDb.Submit | src/api/exemptions/controllers/submit-exemption.js:23-108 | the handler's answer and both collections as the handler leaves them are those of SubmitSpec, and the generator is asked for an "EXEMPTION" reference exactly when SubmitSpec calls it |
| GetExemptions.Summarize | src/api/exemptions/controllers/get-exemptions.js:9-26 | definition of one record's summary; its properties are TypeDefaultsOnlyWhenNullish and OptionalFieldsOnlyWhenTruthy |
| GetExemptions.Transform | src/api/exemptions/controllers/get-exemptions.js:8-27 | one summary per record, in the same order |
| GetExemptions.TypeDefaultsOnlyWhenNullish | src/api/exemptions/controllers/get-exemptions.js:21 | `type` defaults to EXEMPT_ACTIVITY exactly when null or undefined; every other value, falsy ones included, is kept |
| GetExemptions.OptionalFieldsOnlyWhenTruthy | src/api/exemptions/controllers/get-exemptions.js:22-25 | status, projectName, applicationReference and submittedAt are present iff truthy, and then hold the record's value |
| GetExemptions.Rank | src/api/exemptions/controllers/get-exemptions.js:30-44 | DRAFT ranks 0, CLOSED 1, every other status (absent included) 2 |
| GetExemptions.SortByStatus | src/api/exemptions/controllers/get-exemptions.js:29-47 | negative iff a ranks before b, zero iff equal ranks |
| GetExemptions.ComparatorIsConsistent | src/api/exemptions/controllers/get-exemptions.js:29-47 | the comparator is antisymmetric, reflexive-zero and transitive, and treats two unknown statuses as equal |
| GetExemptions.Insert | src/api/exemptions/controllers/get-exemptions.js:60 | definition of one insertion step of the stable sort; its properties are InsertKeepsElements, InsertKeepsSorted and BucketOfInsert |
| GetExemptions.StableSort | src/api/exemptions/controllers/get-exemptions.js:60 | definition of a stable sort by the comparator; its properties are StableSortIsSortedPermutation and StableSortsAgree |
| GetExemptions.GroupedByRank | src/api/exemptions/controllers/get-exemptions.js:60 | the independent reference for the sort (DRAFT group, CLOSED group, the rest, each in input order); StableSortsAgree and ListExemptions relate the sort to it |
| GetExemptions.InsertKeepsElements | src/api/exemptions/controllers/get-exemptions.js:60 | insertion adds exactly one element to the multiset |
| GetExemptions.InsertKeepsSorted | src/api/exemptions/controllers/get-exemptions.js:60 | insertion into a rank-sorted sequence keeps it sorted |
| GetExemptions.BucketOfInsert | src/api/exemptions/controllers/get-exemptions.js:60 | insertion puts the element at the head of its own status group and leaves the other groups alone |
| GetExemptions.StableSortIsSortedPermutation | src/api/exemptions/controllers/get-exemptions.js:60 | the sort result is sorted by rank, a permutation of the input, and keeps input order within each status |
| GetExemptions.SortedIsGrouped | src/api/exemptions/controllers/get-exemptions.js:60 | a rank-sorted sequence is the concatenation of its status groups |
| GetExemptions.NoBucket | src/api/exemptions/controllers/get-exemptions.js:60 | a status absent from a sequence has an empty group |
| GetExemptions.StableSortsAgree | src/api/exemptions/controllers/get-exemptions.js:60 | any rank-sorted sequence with the input's per-status order equals the grouped reference, so every stable sort gives the same answer |
| GetExemptions.ListExemptions | src/api/exemptions/controllers/get-exemptions.js:49-69 | the answer has one summary per record, is sorted DRAFT-CLOSED-other, is a permutation of the projections and keeps the query order within each status |
| AuthorizeOwnership.RequestedId | src/api/exemptions/helpers/authorize-ownership.js:16 | the path id when truthy, otherwise the payload's id (undefined without a payload) |
| AuthorizeOwnership.Authorize | src/api/exemptions/helpers/authorize-ownership.js:6-30 | continues iff auth is disabled or the named record exists and its contactId is `===` the caller's (equal primitive values; an object, Date or ObjectId owner never matches); every refusal is a 404 or the id parse error |
| AuthorizeOwnership.DisabledAlwaysContinues | src/api/exemptions/helpers/authorize-ownership.js:9-11 | with auth disabled the guard always continues |
| AuthorizeOwnership.MissingRecordIsNotFound | src/api/exemptions/helpers/authorize-ownership.js:22-24 | a well-formed id naming no record is a 404 with Boom's default "Not Found" |
| AuthorizeOwnership.ForeignRecordIsNotFound | src/api/exemptions/helpers/authorize-ownership.js:25-27 | a record whose contactId is not `===` the caller's is a 404 "Not authorized to update this resource" |
| AuthorizeOwnership.NonPrimitiveOwnerIsNeverMatched | src/api/exemptions/helpers/authorize-ownership.js:25-27 | a stored owner that is an object, Date or ObjectId never passes the identity comparison, so the record is refused with the "Not authorized" 404 |
| AuthorizeOwnership.PathIdTakesPrecedence | src/api/exemptions/helpers/authorize-ownership.js:16 | a truthy path id makes the payload irrelevant |
| AuthorizeOwnership.DecisionDependsOnlyOnLookedUpRecord | src/api/exemptions/helpers/authorize-ownership.js:18-27 | changing any record other than the named one does not change the decision |
| Auth.ValidateToken | src/plugins/auth.js:23-43 | disabled: valid without credentials; enabled: valid iff contactId is truthy, and then the credentials are exactly contactId and email |
| Auth.DisabledIgnoresToken | src/plugins/auth.js:26-28 | with auth disabled the decoded token is never looked at |
| Auth.KeyError | src/plugins/auth.js:19 | a 500 "Cannot verify auth token", with ": <message>" appended for a plain error with a non-empty message, and nothing appended for an empty message or a Boom error |
| Auth.GetKey | src/plugins/auth.js:6-21 | fetch errors give a 500; absent or empty keys give a null key; otherwise the key is the PEM of the first JWK, or a 500 carrying the conversion's message |
| Auth.OnlyFirstKeyIsUsed | src/plugins/auth.js:16 | key sets that agree on their first key give the same answer |
| Auth.AlgorithmAllowed | src/plugins/auth.js:54-56 | an algorithm is admitted iff it is RS256 |
| Auth.DefaultAuth | src/plugins/auth.js:58-61 | the default strategy is jwt, with mode required iff auth is enabled and try iff disabled |
| MongoDb.UpperAscii | src/common/helpers/mongodb.js:10 | same length, each lower-case ASCII letter replaced by its upper-case letter, every other character unchanged |
| MongoDb.UpperAsciiIgnoresCase | src/common/helpers/mongodb.js:10 | two strings that differ only in ASCII letter case upper-case to the same string |
| MongoDb.UpperAsciiIdempotent | src/common/helpers/mongodb.js:10 | upper-casing twice changes nothing more |
| MongoDb.AuditedPayload | src/common/helpers/mongodb.js:9-32 | definition of the payload the extension leaves; its properties are GetKeepsPayload, UnauthenticatedKeepsPayload, AuthenticatedPostCreates, LowerCasePostCreates, AuthenticatedOtherUpdates and MethodCaseIsIgnored |
| MongoDb.GetKeepsPayload | src/common/helpers/mongodb.js:12-14 | a GET in any letter case keeps its payload |
| MongoDb.UnauthenticatedKeepsPayload | src/common/helpers/mongodb.js:16-20 | a request without truthy credentials keeps its payload |
| MongoDb.AuthenticatedPostCreates | src/common/helpers/mongodb.js:24-27 | an authenticated POST gets the create audit fields |
| MongoDb.LowerCasePostCreates | src/common/helpers/mongodb.js:10-27 | hapi's lower-case "post" is upper-cased before the comparison, so an authenticated "post" gets the create audit fields |
| MongoDb.AuthenticatedOtherUpdates | src/common/helpers/mongodb.js:29 | any other authenticated non-GET method gets the update audit fields |
| MongoDb.MethodCaseIsIgnored | src/common/helpers/mongodb.js:10 | two methods that differ only in ASCII letter case give the same payload |
| MongoDb.Request.AddAuditFields | src/common/helpers/mongodb.js:9-32 | always continues, and the payload afterwards is the audited payload of the old one |
| SiteDetails.ResolvedRule | src/models/site-details/site-details.js:22-73 | definition of the rule each property's `when` resolves to; its properties are EachKeyPassesIffTable, CoordinatesSchemaFollowsSystem and the three coordinatesType lemmas |
| SiteDetails.Validate | src/models/site-details/site-details.js:18-80 | definition of joi's answer (first error or none); its properties are ValidateIffConforms, MissingSiteDetailsIsRequired and the lemmas below |
| SiteDetails.FirstFailureNoneIffAllPass | src/models/site-details/site-details.js:21-74 | the first-error scan finds nothing iff every property passes its resolved rule |
| SiteDetails.AllPassIffEachKeyPasses | src/models/site-details/site-details.js:21-74 | passing every declared property is passing each of the ten by name |
| SiteDetails.EachKeyPassesIffTable | src/models/site-details/site-details.js:22-73 | the ten resolved rules pass iff the permit/forbid table holds |
| SiteDetails.AllPassIffTable | src/models/site-details/site-details.js:22-73 | every property passes its resolved `when` iff the permit/forbid table holds |
| SiteDetails.ValidateIffConforms | src/models/site-details/site-details.js:18-80 | the schema accepts a payload iff it is undefined (the outer object is optional) or an object that conforms to the table, has no unknown property and a valid id |
| SiteDetails.MissingSiteDetailsIsRequired | src/models/site-details/site-details.js:75-78 | a payload without siteDetails fails with message SITE_DETAILS_REQUIRED |
| SiteDetails.FileTypeForbidsCoordinates | src/models/site-details/site-details.js:24-64 | with coordinatesType "file" the file properties pass their schemas and no coordinate property is present |
| SiteDetails.CoordinatesTypeForbidsFile | src/models/site-details/site-details.js:24-73 | with coordinatesType "coordinates" the coordinate properties pass their schemas and no file property is present |
| SiteDetails.OtherTypeForbidsAll | src/models/site-details/site-details.js:24-73 | any other coordinatesType, absent included, forbids all nine conditional properties |
| SiteDetails.CoordinatesSchemaFollowsSystem | src/models/site-details/site-details.js:65-71 | a present `coordinates` is checked by the WGS84 schema iff coordinateSystem is WGS84, else by OSGB36 |
| SiteDetails.NoAcceptedPayloadMixesModes | src/models/site-details/site-details.js:24-73 | no accepted payload has both a file-upload and a manual-coordinate property |

## Left out

- Reference generator: the counter, its lock and the reference format are not part of this model. The generator is an object whose answer is fixed in advance. The model records only whether it was called, and with which category.
- Queue drain: `processExemptionsQueue` and the Dynamics client are not part of this model. Only the drain's outcome (success, or the error it throws) is modelled. The state after a submission is the state the drain starts from; the drain's own writes to the queue are not modelled.
- Payload validation of the submit route (`models/submit-exemption.js`) and the route table are not part of this model. The handler is modelled from the point where hapi calls it.
- `createTaskList` is not part of this model. It is a parameter that yields the task list as its `Object.entries`.
- The clock is a parameter `now` in milliseconds. `toISOString` formatting of `submittedAt` is not modelled.
- Plugin registration, the MongoDB connection, request decorations and `createIndexes` are left out. Of the connection options only `readPreference: 'secondary'` changes what the core observes, and it is modelled as `Environment.secondary`. `retryWrites: false` only means a failed write is not retried, which is the single write error of `Environment`.
- `getContactId` is not part of this model. The caller's contact id is a parameter.
- The query of the listing (filter by contactId, order by projectName) is left out. Its result is the input of `GetExemptions.ListExemptions`.
- `mongo-audit.js` (the audit fields themselves) is not part of this model. `addCreateAuditFields` and `addUpdateAuditFields` are parameters.
- JWKS fetch and `jwkToPem`: these are calls into libraries and are given as their results.
- Js.ParseObjectId: the text of the error thrown on a malformed id is a placeholder constant.
- Constants: the string values of the status, type and coordinate-system constants live in files that are not part of this model. The model uses placeholders, and only their distinctness matters.
- MongoDb.UpperAscii: models `toUpperCase` on ASCII letters only. Unicode case mapping is left out, since HTTP method names are ASCII.
- Auth.GetKey: a JWKS response whose payload is null (the destructuring TypeError) is not modelled separately.
- AuthorizeOwnership.Authorize: a failing `findOne` in the guard is not modelled. Its `exemptions` parameter is the copy the guard's read sees, which may be a lagging secondary.
- Numbers: JavaScript numbers are modelled as integers. NaN (falsy in JavaScript), -0 (also falsy) and fractions are left out; no modelled field is compared as a fraction.
- SiteDetails.Validate: several simplifications.
  - The leaf schemas are predicates on the raw value. joi's leaf type conversion and string-to-object coercion are left out.
  - A key whose value is undefined is treated as absent.
  - An unknown-key error carries the set of unknown keys, not just the first one joi reports.
  - The appended `exemptionId` is modelled as its single `id` key.
  - Error messages other than SITE_DETAILS_REQUIRED are not modelled.
- Concurrency: other requests are modelled only as a rewrite or deletion of the loaded record between load and update. The driver's own failure modes are reduced to an error message.
