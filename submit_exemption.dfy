/**
 * The submission handler of an exemption (POST /exemption/submit): it loads
 * the record, refuses one that already has a reference or whose task list is
 * not complete, mints a reference, closes the record with a conditional
 * update and, when the Dynamics sync is enabled, appends a PENDING item to
 * the sync queue. Every error that is not a Boom error is reported as a 500.
 *
 * `SubmitSpec` says what one submission does to the two collections and what
 * it answers; `ExemptionsDb.Submit` performs it step by step and is proved
 * to agree with it; the lemmas state the handler's promises about `SubmitSpec`.
 */
module SubmitExemption {
  import opened Wrappers
  import opened Js
  import opened Errors
  import opened Constants

  const COMPLETED: string := "COMPLETED"
  const REFERENCE_CATEGORY: string := "EXEMPTION"
  const NOT_FOUND_MESSAGE: string := "Exemption not found"
  const CONFLICT_MESSAGE: string := "Exemption has already been submitted"
  const INCOMPLETE_PREFIX: string := "Exemption is incomplete. Missing sections: "
  const LOST_UPDATE_MESSAGE: string := "Exemption not found during update"
  const INTERNAL_PREFIX: string := "Error submitting exemption: "

  /** What `createTaskList` reports: section names with their statuses, in `Object.entries` order. */
  type TaskList = seq<(string, Value)>

  /** The names of the sections whose status is not exactly "COMPLETED", in task-list order. */
  function IncompleteTasks(taskList: TaskList): (r: seq<string>)
    ensures |r| <= |taskList|
    ensures forall i :: 0 <= i < |taskList| && taskList[i].1 != Str(COMPLETED) ==> taskList[i].0 in r
    ensures forall t :: t in r ==> exists i :: 0 <= i < |taskList| && taskList[i] == (t, taskList[i].1) && taskList[i].1 != Str(COMPLETED)
    ensures r == [] <==> forall i :: 0 <= i < |taskList| ==> taskList[i].1 == Str(COMPLETED)
  {
    if taskList == [] then []
    else
      var rest := IncompleteTasks(taskList[1..]);
      assert forall i :: 1 <= i < |taskList| ==> taskList[i] == taskList[1..][i - 1];
      if taskList[0].1 != Str(COMPLETED) then [taskList[0].0] + rest else rest
  }

  /** Filtering distributes over concatenation, so the order of the missing sections is the task list's. */
  lemma {:induction false} IncompleteTasksAppend(a: TaskList, b: TaskList)
    ensures IncompleteTasks(a + b) == IncompleteTasks(a) + IncompleteTasks(b)
  {
    if a != [] {
      assert (a + b)[0] == a[0] && (a + b)[1..] == a[1..] + b;
      IncompleteTasksAppend(a[1..], b);
    } else {
      assert a + b == b;
    }
  }

  /** `parts.join(sep)` */
  function Join(parts: seq<string>, sep: string): (r: string)
    ensures |parts| == 1 ==> r == parts[0]
    ensures parts == [] ==> r == ""
  {
    if parts == [] then ""
    else if |parts| == 1 then parts[0]
    else parts[0] + sep + Join(parts[1..], sep)
  }

  /** Joining one more part adds the separator and that part at the end. */
  lemma {:induction false} JoinSnoc(parts: seq<string>, sep: string, last: string)
    requires parts != []
    ensures Join(parts + [last], sep) == Join(parts, sep) + sep + last
  {
    if |parts| > 1 {
      assert (parts + [last])[1..] == parts[1..] + [last];
      JoinSnoc(parts[1..], sep, last);
    }
  }

  function IncompleteMessage(missing: seq<string>): string {
    INCOMPLETE_PREFIX + Join(missing, ", ")
  }

  /** The fields of the request payload the handler uses. */
  datatype SubmitPayload = SubmitPayload(id: Value, createdAt: Value, createdBy: Value, updatedAt: Value, updatedBy: Value)

  /** A document of the `exemption-dynamics-queue` collection. */
  datatype QueueItem = QueueItem(
    applicationReferenceNumber: string,
    status: string,
    retries: nat,
    createdAt: Value,
    createdBy: Value,
    updatedAt: Value,
    updatedBy: Value)

  /** The success response: HTTP status, message and value. */
  datatype SubmitResponse = SubmitResponse(statusCode: int, message: string, applicationReference: string, submittedAt: int)

  /** What other requests did to the loaded record between this handler's load and its update. */
  datatype Interleaving = Untouched | Deleted | Rewritten(fields: map<string, Value>)

  /**
   * The behaviour of the database and of the other requests during one call:
   * a rejected `findOne`, `updateOne` or `insertOne` (with the error's message),
   * concurrent writes to the record, and the outcome of the queue drain.
   * The client reads with `readPreference: 'secondary'`: `secondary` is the copy
   * of `exemptions` the load reads when that secondary lags the primary, None
   * when the load sees every write. Writes always go to the primary.
   */
  datatype Environment = Environment(
    findError: Option<string>,
    secondary: Option<map<ObjectId, Document>>,
    interleaving: Interleaving,
    updateError: Option<string>,
    insertError: Option<string>,
    drainError: Option<Thrown>)

  /** The `exemptions` collection, keyed by `_id`, and the `exemption-dynamics-queue` collection in insertion order. */
  datatype DbState = DbState(exemptions: map<ObjectId, Document>, queue: seq<QueueItem>)

  /** Every record is stored under its own `_id`. */
  predicate WellKeyed(exemptions: map<ObjectId, Document>) {
    forall k :: k in exemptions ==> exemptions[k].id == k
  }

  /**
   * The answer of one submission, the collections as the handler's own writes leave them (the
   * state the queue drain starts from; the drain's own writes are not modelled), and whether the
   * reference generator was called.
   */
  datatype Submission = Submission(response: Result<SubmitResponse, Boom>, after: DbState, generatorCalled: bool)

  /** The catch block: Boom errors propagate, anything else becomes "Error submitting exemption: <message>". */
  function Abort(after: DbState, e: Thrown, generatorCalled: bool): Submission {
    Submission(Failure(Rethrow(e, INTERNAL_PREFIX)), after, generatorCalled)
  }

  /** The copy of `exemptions` the load reads. */
  function Visible(db: DbState, env: Environment): map<ObjectId, Document> {
    if env.secondary.Some? then env.secondary.value else db.exemptions
  }

  /** The primary's records as other requests left them when the update runs; a rewrite only touches a record that exists. */
  function AtUpdate(exemptions: map<ObjectId, Document>, id: ObjectId, i: Interleaving): map<ObjectId, Document> {
    match i
    case Untouched => exemptions
    case Deleted => exemptions - {id}
    case Rewritten(fields) => if id in exemptions then exemptions[id := Document(id, fields)] else exemptions
  }

  /** The `$set` of the conditional update. */
  function ClosingFields(reference: string, now: int, payload: SubmitPayload): map<string, Value> {
    map[
      "applicationReference" := Str(reference),
      "submittedAt" := Date(now),
      "status" := Str(CLOSED),
      "updatedAt" := Stored(payload.updatedAt),
      "updatedBy" := Stored(payload.updatedBy)]
  }

  function PendingItem(reference: string, payload: SubmitPayload): QueueItem {
    QueueItem(reference, PENDING, 0, Stored(payload.createdAt), Stored(payload.createdBy),
              Stored(payload.updatedAt), Stored(payload.updatedBy))
  }

  /**
   * One submission of `payload.id` against `db`: `generated` is what the
   * reference generator answers if it is called, `now` the clock.
   */
  function SubmitSpec(db: DbState, payload: SubmitPayload, isDynamicsEnabled: bool,
                      createTaskList: Document -> TaskList, generated: Result<string, Thrown>,
                      env: Environment, now: int): Submission
  {
    var id := ParseObjectId(payload.id);
    if id.None? then Abort(db, PlainError(INVALID_ID_MESSAGE), false)
    else if env.findError.Some? then Abort(db, PlainError(env.findError.value), false)
    else if id.value !in Visible(db, env) then Abort(db, BoomError(NotFound(NOT_FOUND_MESSAGE)), false)
    else
      var exemption := Visible(db, env)[id.value];
      var missing := IncompleteTasks(createTaskList(exemption));
      if Truthy(Get(exemption.fields, "applicationReference")) then
        Abort(db, BoomError(Conflict(CONFLICT_MESSAGE)), false)
      else if |missing| > 0 then
        Abort(db, BoomError(BadRequest(IncompleteMessage(missing))), false)
      else if generated.Failure? then
        Abort(db, generated.error, true)
      else
        var reference := generated.value;
        var current := AtUpdate(db.exemptions, id.value, env.interleaving);
        if env.updateError.Some? then
          Abort(DbState(current, db.queue), PlainError(env.updateError.value), true)
        else if id.value !in current then
          Abort(DbState(current, db.queue), BoomError(NotFound(LOST_UPDATE_MESSAGE)), true)
        else
          var closed := Document(id.value, current[id.value].fields + ClosingFields(reference, now, payload));
          var updated := DbState(current[id.value := closed], db.queue);
          var success := Success(SubmitResponse(200, "success", reference, now));
          if !isDynamicsEnabled then
            Submission(success, updated, true)
          else if env.insertError.Some? then
            Abort(updated, PlainError(env.insertError.value), true)
          else
            var enqueued := DbState(updated.exemptions, updated.queue + [PendingItem(reference, payload)]);
            if env.drainError.Some? then Abort(enqueued, env.drainError.value, true)
            else Submission(success, enqueued, true)
  }

  /** The record a well-formed id names, when the lookup itself does not fail. */
  predicate Loads(db: DbState, payload: SubmitPayload, env: Environment) {
    ParseObjectId(payload.id).Some? && env.findError.None? && ParseObjectId(payload.id).value in Visible(db, env)
  }

  /** The record the load returns. */
  function Loaded(db: DbState, payload: SubmitPayload, env: Environment): Document
    requires Loads(db, payload, env)
  {
    Visible(db, env)[ParseObjectId(payload.id).value]
  }

  /** The three checks that precede any write: the record exists, has no reference, and every task is COMPLETED. */
  predicate ChecksPass(db: DbState, payload: SubmitPayload, createTaskList: Document -> TaskList, env: Environment) {
    && Loads(db, payload, env)
    && var exemption := Loaded(db, payload, env);
    && !Truthy(Get(exemption.fields, "applicationReference"))
    && IncompleteTasks(createTaskList(exemption)) == []
  }

  /** A missing exemption is a 404 "Exemption not found"; nothing is written and no reference is generated. */
  lemma MissingExemptionIsNotFound(db: DbState, payload: SubmitPayload, isDynamicsEnabled: bool,
                                   createTaskList: Document -> TaskList, generated: Result<string, Thrown>,
                                   env: Environment, now: int)
    requires ParseObjectId(payload.id).Some? && env.findError.None?
    requires ParseObjectId(payload.id).value !in Visible(db, env)
    ensures var s := SubmitSpec(db, payload, isDynamicsEnabled, createTaskList, generated, env, now);
            s.response == Failure(Boom(404, NOT_FOUND_MESSAGE)) && s.after == db && !s.generatorCalled
  {
  }

  /** An exemption that already has a reference is a 409; nothing is written and no reference is generated. */
  lemma AlreadySubmittedIsConflict(db: DbState, payload: SubmitPayload, isDynamicsEnabled: bool,
                                   createTaskList: Document -> TaskList, generated: Result<string, Thrown>,
                                   env: Environment, now: int)
    requires Loads(db, payload, env)
    requires Truthy(Get(Loaded(db, payload, env).fields, "applicationReference"))
    ensures var s := SubmitSpec(db, payload, isDynamicsEnabled, createTaskList, generated, env, now);
            s.response == Failure(Boom(409, CONFLICT_MESSAGE)) && s.after == db && !s.generatorCalled
  {
  }

  /**
   * A task list with any entry that is not exactly "COMPLETED" (null, unknown statuses and
   * unforeseen sections included) is a 400 naming those sections in task-list order, ", "-joined;
   * nothing is written and no reference is generated.
   */
  lemma IncompleteIsBadRequest(db: DbState, payload: SubmitPayload, isDynamicsEnabled: bool,
                               createTaskList: Document -> TaskList, generated: Result<string, Thrown>,
                               env: Environment, now: int)
    requires Loads(db, payload, env)
    requires var exemption := Loaded(db, payload, env);
             && !Truthy(Get(exemption.fields, "applicationReference"))
             && exists i :: 0 <= i < |createTaskList(exemption)| && createTaskList(exemption)[i].1 != Str(COMPLETED)
    ensures var s := SubmitSpec(db, payload, isDynamicsEnabled, createTaskList, generated, env, now);
            var missing := IncompleteTasks(createTaskList(Loaded(db, payload, env)));
            && missing != []
            && s.response == Failure(Boom(400, "Exemption is incomplete. Missing sections: " + Join(missing, ", ")))
            && s.after == db && !s.generatorCalled
  {
  }

  /** The generator is called exactly when all three checks pass, and nothing is written before that. */
  lemma GeneratorCalledOnlyAfterChecks(db: DbState, payload: SubmitPayload, isDynamicsEnabled: bool,
                                       createTaskList: Document -> TaskList, generated: Result<string, Thrown>,
                                       env: Environment, now: int)
    ensures var s := SubmitSpec(db, payload, isDynamicsEnabled, createTaskList, generated, env, now);
            && (s.generatorCalled <==> ChecksPass(db, payload, createTaskList, env))
            && (!s.generatorCalled ==> s.after == db && s.response.Failure?)
  {
  }

  /**
   * A failing generator aborts the submission with no update and no enqueue: a Boom error
   * comes back as it is, any other error as a 500 "Error submitting exemption: <message>".
   */
  lemma GeneratorFailureChangesNothing(db: DbState, payload: SubmitPayload, isDynamicsEnabled: bool,
                                       createTaskList: Document -> TaskList, generated: Result<string, Thrown>,
                                       env: Environment, now: int)
    requires ChecksPass(db, payload, createTaskList, env) && generated.Failure?
    ensures var s := SubmitSpec(db, payload, isDynamicsEnabled, createTaskList, generated, env, now);
            && s.after == db
            && s.response.Failure?
            && (generated.error.BoomError? ==> s.response.error == generated.error.boom)
            && (generated.error.PlainError? ==>
                  s.response.error == Boom(500, "Error submitting exemption: " + generated.error.message))
  {
  }

  /**
   * A successful submission answers 200 with the generated reference, and the record then holds
   * that reference, the submission time and status CLOSED; no other record changes.
   */
  lemma SuccessClosesRecord(db: DbState, payload: SubmitPayload, isDynamicsEnabled: bool,
                            createTaskList: Document -> TaskList, generated: Result<string, Thrown>,
                            env: Environment, now: int)
    ensures var s := SubmitSpec(db, payload, isDynamicsEnabled, createTaskList, generated, env, now);
            s.response.Success? ==>
              && ChecksPass(db, payload, createTaskList, env)
              && generated.Success?
              && var id := ParseObjectId(payload.id).value;
              && s.response.value == SubmitResponse(200, "success", generated.value, now)
              && id in s.after.exemptions
              && s.after.exemptions.Keys == db.exemptions.Keys
              && Get(s.after.exemptions[id].fields, "applicationReference") == Str(generated.value)
              && Get(s.after.exemptions[id].fields, "submittedAt") == Date(now)
              && Get(s.after.exemptions[id].fields, "status") == Str(CLOSED)
              && Get(s.after.exemptions[id].fields, "updatedAt") == Stored(payload.updatedAt)
              && Get(s.after.exemptions[id].fields, "updatedBy") == Stored(payload.updatedBy)
              && id in AtUpdate(db.exemptions, id, env.interleaving)
              && (forall k :: k !in ClosingFields(generated.value, now, payload).Keys ==>
                    Get(s.after.exemptions[id].fields, k) == Get(AtUpdate(db.exemptions, id, env.interleaving)[id].fields, k))
              && (forall k :: k in db.exemptions && k != id ==> s.after.exemptions[k] == db.exemptions[k])
  {
  }

  /** With the sync enabled a success appends exactly one PENDING item carrying the reference; disabled, the queue is untouched. */
  lemma SuccessEnqueuesPendingItem(db: DbState, payload: SubmitPayload, isDynamicsEnabled: bool,
                                   createTaskList: Document -> TaskList, generated: Result<string, Thrown>,
                                   env: Environment, now: int)
    ensures var s := SubmitSpec(db, payload, isDynamicsEnabled, createTaskList, generated, env, now);
            && (!isDynamicsEnabled ==> s.after.queue == db.queue)
            && (s.response.Success? && isDynamicsEnabled ==>
                  && s.after.queue == db.queue + [s.after.queue[|db.queue|]]
                  && s.after.queue[|db.queue|].applicationReferenceNumber == s.response.value.applicationReference
                  && s.after.queue[|db.queue|].status == PENDING
                  && s.after.queue[|db.queue|].retries == 0)
            && (s.after.queue == db.queue || s.after.queue == db.queue + [PendingItem(generated.value, payload)])
  {
  }

  /**
   * A record that is gone from the primary when the update runs (deleted after the load, or
   * read from a secondary that had not yet seen its deletion) is a 404 "Exemption not found
   * during update", and nothing is enqueued.
   */
  lemma LostUpdateIsNotFound(db: DbState, payload: SubmitPayload, isDynamicsEnabled: bool,
                             createTaskList: Document -> TaskList, generated: Result<string, Thrown>,
                             env: Environment, now: int)
    requires ChecksPass(db, payload, createTaskList, env) && generated.Success?
    requires env.updateError.None?
    requires ParseObjectId(payload.id).value !in AtUpdate(db.exemptions, ParseObjectId(payload.id).value, env.interleaving)
    ensures var s := SubmitSpec(db, payload, isDynamicsEnabled, createTaskList, generated, env, now);
            && s.response == Failure(Boom(404, LOST_UPDATE_MESSAGE))
            && s.after.queue == db.queue
            && ParseObjectId(payload.id).value !in s.after.exemptions
  {
  }

  /** Every failure is a Boom error the handler raised, one a step threw, or a 500 wrapping a plain error's message. */
  lemma FailuresAreBoomErrors(db: DbState, payload: SubmitPayload, isDynamicsEnabled: bool,
                              createTaskList: Document -> TaskList, generated: Result<string, Thrown>,
                              env: Environment, now: int)
    ensures var s := SubmitSpec(db, payload, isDynamicsEnabled, createTaskList, generated, env, now);
            s.response.Failure? ==>
              || s.response.error.statusCode in {400, 404, 409}
              || (s.response.error.statusCode == 500 && |INTERNAL_PREFIX| <= |s.response.error.message|
                  && s.response.error.message[..|INTERNAL_PREFIX|] == INTERNAL_PREFIX)
              || (generated.Failure? && generated.error == BoomError(s.response.error))
              || (env.drainError.Some? && env.drainError.value == BoomError(s.response.error))
  {
  }

  /**
   * What a failing database step or drain answers: a plain error from `findOne` or `updateOne`
   * becomes a 500 "Error submitting exemption: <its message>"; an error thrown by the drain is
   * rethrown, a Boom error exactly as it is, after the record is closed and the item enqueued.
   */
  lemma StepErrorsAreRethrown(db: DbState, payload: SubmitPayload, isDynamicsEnabled: bool,
                              createTaskList: Document -> TaskList, generated: Result<string, Thrown>,
                              env: Environment, now: int)
    ensures var s := SubmitSpec(db, payload, isDynamicsEnabled, createTaskList, generated, env, now);
            && (ParseObjectId(payload.id).Some? && env.findError.Some? ==>
                  && s.response == Failure(Boom(500, INTERNAL_PREFIX + env.findError.value))
                  && s.after == db && !s.generatorCalled)
            && (ChecksPass(db, payload, createTaskList, env) && generated.Success? && env.updateError.Some? ==>
                  && s.response == Failure(Boom(500, INTERNAL_PREFIX + env.updateError.value))
                  && s.after.queue == db.queue)
            && (ChecksPass(db, payload, createTaskList, env) && generated.Success? && env.updateError.None?
                && ParseObjectId(payload.id).value in AtUpdate(db.exemptions, ParseObjectId(payload.id).value, env.interleaving)
                && isDynamicsEnabled && env.insertError.None? && env.drainError.Some? ==>
                  && s.response == Failure(Rethrow(env.drainError.value, INTERNAL_PREFIX))
                  && (env.drainError.value.BoomError? ==> s.response == Failure(env.drainError.value.boom))
                  && (env.drainError.value.PlainError? ==>
                        s.response == Failure(Boom(500, INTERNAL_PREFIX + env.drainError.value.message)))
                  && s.after.queue == db.queue + [PendingItem(generated.value, payload)]
                  && Get(s.after.exemptions[ParseObjectId(payload.id).value].fields, "status") == Str(CLOSED))
  {
  }

  /**
   * The load reads the primary's current copy of record `id`: either no lagging secondary is
   * involved, or it has already replicated that record.
   */
  predicate SeesRecord(db: DbState, id: ObjectId, env: Environment) {
    id in db.exemptions ==> id in Visible(db, env) && Visible(db, env)[id] == db.exemptions[id]
  }

  /**
   * Submitting again after a success (with a non-empty reference) is a 409 that changes
   * nothing and generates no second reference, provided the second load sees the first
   * submission's write.
   */
  lemma ResubmissionIsConflict(db: DbState, payload: SubmitPayload, isDynamicsEnabled: bool,
                               createTaskList: Document -> TaskList, generated: Result<string, Thrown>,
                               env: Environment, now: int,
                               payload2: SubmitPayload, createTaskList2: Document -> TaskList,
                               generated2: Result<string, Thrown>, env2: Environment, now2: int)
    requires generated.Success? && generated.value != ""
    requires SubmitSpec(db, payload, isDynamicsEnabled, createTaskList, generated, env, now).response.Success?
    requires ParseObjectId(payload2.id) == ParseObjectId(payload.id) && env2.findError.None?
    requires SeesRecord(SubmitSpec(db, payload, isDynamicsEnabled, createTaskList, generated, env, now).after,
                        ParseObjectId(payload.id).value, env2)
    ensures var first := SubmitSpec(db, payload, isDynamicsEnabled, createTaskList, generated, env, now);
            var second := SubmitSpec(first.after, payload2, isDynamicsEnabled, createTaskList2, generated2, env2, now2);
            second.response == Failure(Boom(409, CONFLICT_MESSAGE)) && second.after == first.after && !second.generatorCalled
  {
    SuccessClosesRecord(db, payload, isDynamicsEnabled, createTaskList, generated, env, now);
  }

  /**
   * With reads going to a secondary, a retry whose load reads a copy that predates the first
   * submission passes the checks again and overwrites the record's reference with a second one:
   * the 409 above is only guaranteed once the write has replicated.
   */
  lemma StaleLoadMintsSecondReference(db: DbState, payload: SubmitPayload, isDynamicsEnabled: bool,
                                      createTaskList: Document -> TaskList, reference: string,
                                      env: Environment, now: int,
                                      payload2: SubmitPayload, reference2: string, env2: Environment, now2: int)
    requires env.secondary.None?
    requires SubmitSpec(db, payload, isDynamicsEnabled, createTaskList, Success(reference), env, now).response.Success?
    requires ParseObjectId(payload2.id) == ParseObjectId(payload.id)
    requires env2.secondary == Some(db.exemptions) && env2.interleaving == Untouched && Reliable(env2)
    requires reference2 != reference
    ensures var first := SubmitSpec(db, payload, isDynamicsEnabled, createTaskList, Success(reference), env, now);
            var second := SubmitSpec(first.after, payload2, isDynamicsEnabled, createTaskList, Success(reference2), env2, now2);
            var id := ParseObjectId(payload.id).value;
            && Get(first.after.exemptions[id].fields, "applicationReference") == Str(reference)
            && second.response == Success(SubmitResponse(200, "success", reference2, now2))
            && Get(second.after.exemptions[id].fields, "applicationReference") == Str(reference2)
            && second.after.exemptions[id].fields != first.after.exemptions[id].fields
  {
    SuccessClosesRecord(db, payload, isDynamicsEnabled, createTaskList, Success(reference), env, now);
    var first := SubmitSpec(db, payload, isDynamicsEnabled, createTaskList, Success(reference), env, now);
    assert Visible(first.after, env2) == Visible(db, env);
  }

  /** The record invariant of the data model: a record has a reference exactly when its status is CLOSED. */
  predicate ReferenceMatchesStatus(d: Document) {
    Truthy(Get(d.fields, "applicationReference")) <==> Get(d.fields, "status") == Str(CLOSED)
  }

  predicate AllReferencesMatchStatus(exemptions: map<ObjectId, Document>) {
    forall k :: k in exemptions ==> ReferenceMatchesStatus(exemptions[k])
  }

  /** A submission keeps the record invariant, provided the reference it mints is not empty. */
  lemma SubmitKeepsReferenceInvariant(db: DbState, payload: SubmitPayload, isDynamicsEnabled: bool,
                                      createTaskList: Document -> TaskList, generated: Result<string, Thrown>,
                                      env: Environment, now: int)
    requires AllReferencesMatchStatus(db.exemptions)
    requires generated.Success? ==> generated.value != ""
    requires env.interleaving.Rewritten? ==> ReferenceMatchesStatus(Document("", env.interleaving.fields))
    ensures AllReferencesMatchStatus(SubmitSpec(db, payload, isDynamicsEnabled, createTaskList, generated, env, now).after.exemptions)
  {
  }

  /** No database step fails and the drain succeeds. */
  predicate Reliable(env: Environment) {
    env.findError.None? && env.updateError.None? && env.insertError.None? && env.drainError.None?
  }

  /**
   * Two submissions of one draft that interleave: B runs to completion between A's load and A's
   * update. Both callers are told they succeeded, each with its own reference, and the record
   * keeps only A's: the update is conditioned on `_id` alone, so B's reference is overwritten.
   */
  lemma InterleavedSubmissionsBothSucceed(db: DbState, payloadA: SubmitPayload, payloadB: SubmitPayload,
                                          isDynamicsEnabled: bool, createTaskList: Document -> TaskList,
                                          referenceA: string, referenceB: string, envA: Environment,
                                          envB: Environment, nowA: int, nowB: int)
    requires ChecksPass(db, payloadA, createTaskList, envA) && Reliable(envA) && Reliable(envB)
    requires ParseObjectId(payloadB.id) == ParseObjectId(payloadA.id) && envB.secondary == envA.secondary
    requires ParseObjectId(payloadA.id).value in db.exemptions
    requires referenceA != referenceB && envB.interleaving == Untouched
    requires var b := SubmitSpec(db, payloadB, isDynamicsEnabled, createTaskList, Success(referenceB), envB, nowB);
             envA.interleaving == Rewritten(b.after.exemptions[ParseObjectId(payloadA.id).value].fields)
    ensures var b := SubmitSpec(db, payloadB, isDynamicsEnabled, createTaskList, Success(referenceB), envB, nowB);
            var a := SubmitSpec(db, payloadA, isDynamicsEnabled, createTaskList, Success(referenceA), envA, nowA);
            var id := ParseObjectId(payloadA.id).value;
            && b.response == Success(SubmitResponse(200, "success", referenceB, nowB))
            && a.response == Success(SubmitResponse(200, "success", referenceA, nowA))
            && Get(a.after.exemptions[id].fields, "applicationReference") == Str(referenceA)
            && Get(a.after.exemptions[id].fields, "applicationReference") != Str(referenceB)
  {
    SuccessClosesRecord(db, payloadB, isDynamicsEnabled, createTaskList, Success(referenceB), envB, nowB);
  }

  /**
   * A rejected queue insert comes after the update: the caller gets a 500, the record is already
   * CLOSED with its reference, and no queue item exists; with a non-empty reference a retry whose
   * load sees this write is refused as a conflict (`RetryAfterFailedEnqueueIsConflict`).
   */
  lemma FailedEnqueueLeavesRecordClosed(db: DbState, payload: SubmitPayload, createTaskList: Document -> TaskList,
                                        reference: string, env: Environment, now: int)
    requires ChecksPass(db, payload, createTaskList, env)
    requires env.updateError.None? && env.insertError.Some?
    requires ParseObjectId(payload.id).value in AtUpdate(db.exemptions, ParseObjectId(payload.id).value, env.interleaving)
    ensures var s := SubmitSpec(db, payload, true, createTaskList, Success(reference), env, now);
            var id := ParseObjectId(payload.id).value;
            && s.response == Failure(Boom(500, "Error submitting exemption: " + env.insertError.value))
            && s.after.queue == db.queue
            && Get(s.after.exemptions[id].fields, "applicationReference") == Str(reference)
            && Get(s.after.exemptions[id].fields, "status") == Str(CLOSED)
  {
  }

  /**
   * After a failed enqueue the record holds its non-empty reference, so a retry whose load sees
   * that write is a 409 that changes nothing: the item is never enqueued by a retry.
   */
  lemma RetryAfterFailedEnqueueIsConflict(db: DbState, payload: SubmitPayload, createTaskList: Document -> TaskList,
                                          reference: string, env: Environment, now: int,
                                          payload2: SubmitPayload, isDynamicsEnabled2: bool,
                                          createTaskList2: Document -> TaskList, generated2: Result<string, Thrown>,
                                          env2: Environment, now2: int)
    requires ChecksPass(db, payload, createTaskList, env) && reference != ""
    requires env.updateError.None? && env.insertError.Some?
    requires ParseObjectId(payload.id).value in AtUpdate(db.exemptions, ParseObjectId(payload.id).value, env.interleaving)
    requires ParseObjectId(payload2.id) == ParseObjectId(payload.id) && env2.findError.None?
    requires SeesRecord(SubmitSpec(db, payload, true, createTaskList, Success(reference), env, now).after,
                        ParseObjectId(payload.id).value, env2)
    ensures var first := SubmitSpec(db, payload, true, createTaskList, Success(reference), env, now);
            var second := SubmitSpec(first.after, payload2, isDynamicsEnabled2, createTaskList2, generated2, env2, now2);
            && first.response.Failure?
            && second.response == Failure(Boom(409, CONFLICT_MESSAGE)) && second.after == first.after && !second.generatorCalled
  {
    FailedEnqueueLeavesRecordClosed(db, payload, createTaskList, reference, env, now);
    var first := SubmitSpec(db, payload, true, createTaskList, Success(reference), env, now);
    AlreadySubmittedIsConflict(first.after, payload2, isDynamicsEnabled2, createTaskList2, generated2, env2, now2);
  }

  /**
   * The reference generator, whose implementation is not part of this model:
   * `outcome` is what its next call answers, `requests` the category of each call so far.
   */
  class ReferenceGenerator {
    var outcome: Result<string, Thrown>
    var requests: seq<string>

    constructor (outcome: Result<string, Thrown>)
      ensures this.outcome == outcome && requests == []
    {
      this.outcome := outcome;
      requests := [];
    }

    method Generate(category: string) returns (r: Result<string, Thrown>)
      modifies this`requests
      ensures r == outcome
      ensures requests == old(requests) + [category]
    {
      r := outcome;
      requests := requests + [category];
    }
  }

  /** The two collections the handler writes. */
  class ExemptionsDb {
    var exemptions: map<ObjectId, Document>
    var queue: seq<QueueItem>

    ghost predicate Valid()
      reads this
    {
      WellKeyed(exemptions)
    }

    function State(): DbState
      reads this
    {
      DbState(exemptions, queue)
    }

    constructor (exemptions: map<ObjectId, Document>)
      requires WellKeyed(exemptions)
      ensures Valid() && State() == DbState(exemptions, [])
    {
      this.exemptions := exemptions;
      queue := [];
    }

    /** `findOne({ _id })`, answered from the lagging `secondary` copy when there is one. */
    method FindOne(id: ObjectId, secondary: Option<map<ObjectId, Document>>) returns (found: Option<Document>)
      requires Valid()
      ensures var view := if secondary.Some? then secondary.value else exemptions;
              found == if id in view then Some(view[id]) else None
      ensures secondary.None? && found.Some? ==> found.value.id == id
    {
      var view := if secondary.Some? then secondary.value else exemptions;
      found := if id in view then Some(view[id]) else None;
    }

    /** `updateOne({ _id }, { $set })`: merges `changes` into the record with that `_id`, if there is one. */
    method UpdateOne(id: ObjectId, changes: map<string, Value>) returns (matchedCount: nat)
      requires Valid()
      modifies this`exemptions
      ensures Valid()
      ensures matchedCount == if id in old(exemptions) then 1 else 0
      ensures exemptions == if id in old(exemptions)
                            then old(exemptions)[id := Document(id, old(exemptions)[id].fields + changes)]
                            else old(exemptions)
    {
      if id in exemptions {
        exemptions := exemptions[id := Document(id, exemptions[id].fields + changes)];
        matchedCount := 1;
      } else {
        matchedCount := 0;
      }
    }

    /** `insertOne(item)` on the queue collection. */
    method InsertOne(item: QueueItem)
      modifies this`queue
      ensures queue == old(queue) + [item]
    {
      queue := queue + [item];
    }

    /** The writes of other requests that land between the handler's load and its update. */
    method Interleave(id: ObjectId, i: Interleaving)
      requires Valid()
      modifies this`exemptions
      ensures Valid()
      ensures exemptions == AtUpdate(old(exemptions), id, i)
    {
      exemptions := AtUpdate(exemptions, id, i);
    }

    /** `submitExemptionController.handler` */
    method Submit(payload: SubmitPayload, isDynamicsEnabled: bool, createTaskList: Document -> TaskList,
                  generator: ReferenceGenerator, env: Environment, now: int)
      returns (r: Result<SubmitResponse, Boom>)
      requires Valid()
      modifies this, generator`requests
      ensures Valid()
      ensures var s := SubmitSpec(old(State()), payload, isDynamicsEnabled, createTaskList,
                                  generator.outcome, env, now);
              && r == s.response
              && State() == s.after
              && generator.requests == old(generator.requests) + (if s.generatorCalled then [REFERENCE_CATEGORY] else [])
    {
      var id := ParseObjectId(payload.id);
      if id.None? {
        r := Failure(Rethrow(PlainError(INVALID_ID_MESSAGE), INTERNAL_PREFIX));
        return;
      }
      if env.findError.Some? {
        r := Failure(Rethrow(PlainError(env.findError.value), INTERNAL_PREFIX));
        return;
      }
      var found := FindOne(id.value, env.secondary);
      if found.None? {
        r := Failure(NotFound(NOT_FOUND_MESSAGE));
        return;
      }
      var exemption := found.value;
      if Truthy(Get(exemption.fields, "applicationReference")) {
        r := Failure(Conflict(CONFLICT_MESSAGE));
        return;
      }
      var missing := IncompleteTasks(createTaskList(exemption));
      if |missing| > 0 {
        r := Failure(BadRequest(IncompleteMessage(missing)));
        return;
      }
      var generated := generator.Generate(REFERENCE_CATEGORY);
      if generated.Failure? {
        r := Failure(Rethrow(generated.error, INTERNAL_PREFIX));
        return;
      }
      var reference := generated.value;
      Interleave(id.value, env.interleaving);
      if env.updateError.Some? {
        r := Failure(Rethrow(PlainError(env.updateError.value), INTERNAL_PREFIX));
        return;
      }
      var matchedCount := UpdateOne(id.value, ClosingFields(reference, now, payload));
      if matchedCount == 0 {
        r := Failure(NotFound(LOST_UPDATE_MESSAGE));
        return;
      }
      if isDynamicsEnabled {
        if env.insertError.Some? {
          r := Failure(Rethrow(PlainError(env.insertError.value), INTERNAL_PREFIX));
          return;
        }
        InsertOne(PendingItem(reference, payload));
        if env.drainError.Some? {
          r := Failure(Rethrow(env.drainError.value, INTERNAL_PREFIX));
          return;
        }
      }
      r := Success(SubmitResponse(200, "success", reference, now));
    }
  }
}
