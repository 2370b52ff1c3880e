/**
 * The Clerk webhook endpoint of app/api/webhooks/clerk/route.ts: the secret,
 * header and signature guards, then the dispatch on the event type to one
 * call of the user store (create, update or delete), with the metadata
 * write-back after a create.
 *
 * The Svix signature check, the user store and Clerk's metadata API are not
 * visible code; their answers come from an `Oracle` value, so every property
 * proved below holds whatever they answer.
 */
module ClerkWebhook {
  import opened Wrappers

  // ---------------------------------------------------------------------
  // The request, as already-extracted fields
  // ---------------------------------------------------------------------

  /** The three Svix headers; a missing header is None. */
  datatype SvixHeaders = SvixHeaders(svixId: Option<string>, svixTimestamp: Option<string>, svixSignature: Option<string>)

  datatype EmailAddress = EmailAddress(emailAddress: string)

  /**
   * The fields of `evt.data` that the handler reads. A missing `id` is
   * represented by "", which is falsy like `undefined`.
   */
  datatype EventData = EventData(
    id: string,
    emailAddresses: seq<EmailAddress>,
    imageUrl: string,
    firstName: Option<string>,
    lastName: Option<string>,
    username: Option<string>)

  /** The event the body holds; `webhook.verify` returns it when the signature is valid. */
  datatype WebhookEvent = WebhookEvent(eventType: string, data: EventData)

  datatype Request = Request(headers: SvixHeaders, event: WebhookEvent)

  // ---------------------------------------------------------------------
  // The user store and the calls the handler makes
  // ---------------------------------------------------------------------

  /** The record passed to `createUser`. */
  datatype CreateUserParams = CreateUserParams(
    clerkId: string,
    email: string,
    username: string,
    firstName: Option<string>,
    lastName: Option<string>,
    photo: string)

  /** The fields passed to `updateUser`; `username` may be null despite the `!` in the source. */
  datatype UpdateUserParams = UpdateUserParams(
    firstName: Option<string>,
    lastName: Option<string>,
    username: Option<string>,
    photo: string)

  /** A stored user document; `internalId` is the `_id` the store generates. */
  datatype UserDoc = UserDoc(
    internalId: string,
    clerkId: string,
    email: string,
    username: Option<string>,
    firstName: Option<string>,
    lastName: Option<string>,
    photo: string)

  /** The document `createUser` stores for `params` under the generated id. */
  function NewDoc(params: CreateUserParams, internalId: string): (doc: UserDoc)
    ensures doc.clerkId == params.clerkId && doc.email == params.email && doc.internalId == internalId
  {
    UserDoc(internalId, params.clerkId, params.email, Some(params.username),
            params.firstName, params.lastName, params.photo)
  }

  /** The document after `updateUser`: the four patched fields change, identity and email do not. */
  function Patched(doc: UserDoc, params: UpdateUserParams): (r: UserDoc)
    ensures r.internalId == doc.internalId && r.clerkId == doc.clerkId && r.email == doc.email
  {
    doc.(firstName := params.firstName, lastName := params.lastName,
         username := params.username, photo := params.photo)
  }

  /** What `createUser` does: throw, return a falsy value, or return the new document. */
  datatype CreateReply = CreateThrows | CreateReturnsNull | CreateReturns(internalId: string)

  /**
   * What `updateUser` or `deleteUser` does: throw, return null, or apply the
   * change and return the document. A store holding no document under the id
   * has none to change or return, so it returns null then.
   */
  datatype StoreReply = StoreThrows | StoreReturnsNull | StoreReturnsDocument

  /**
   * The answers of the code this model cannot see: the error `new Webhook(secret)`
   * throws when it cannot decode the secret (None when it can), whether the
   * Svix signature is valid, what `createUser` does, whether the metadata
   * write-back succeeds, and what `updateUser` and `deleteUser` do.
   */
  datatype Oracle = Oracle(
    secretError: Option<string>,
    signatureValid: bool,
    create: CreateReply,
    metadataWriteSucceeds: bool,
    update: StoreReply,
    delete: StoreReply)

  /** One call to code outside the handler, in the order made. */
  datatype Call =
    | VerifyCall(headers: SvixHeaders)
    | CreateUserCall(user: CreateUserParams)
    | UpdateUserMetadataCall(clerkId: string, userId: string)
    | UpdateUserCall(clerkId: string, update: UpdateUserParams)
    | DeleteUserCall(clerkId: string)

  /** A call of the user store (as opposed to the verifier or Clerk's metadata API). */
  predicate IsStoreCall(c: Call)
  {
    c.CreateUserCall? || c.UpdateUserCall? || c.DeleteUserCall?
  }

  predicate NoStoreCall(calls: seq<Call>)
  {
    forall i :: 0 <= i < |calls| ==> !IsStoreCall(calls[i])
  }

  predicate AtMostOneStoreCall(calls: seq<Call>)
  {
    forall i, j :: 0 <= i < j < |calls| ==> !(IsStoreCall(calls[i]) && IsStoreCall(calls[j]))
  }

  /** Every document is stored under its own `clerkId`. */
  predicate WellKeyed(users: map<string, UserDoc>)
  {
    forall k :: k in users ==> users[k].clerkId == k
  }

  // ---------------------------------------------------------------------
  // Responses
  // ---------------------------------------------------------------------

  /** A plain-text `Response` with a status, or `NextResponse.json({ message, user })` (status 200). */
  datatype Response = Text(status: int, text: string) | Json(message: string, user: Option<UserDoc>)
  {
    function Status(): int
    {
      if Text? then status else 200
    }
  }

  /** The handler either throws or returns a response. */
  datatype Outcome = Threw(message: string) | Returned(response: Response)

  predicate HasStatus(o: Outcome, status: int)
  {
    o.Returned? && o.response.Status() == status
  }

  /** A rejection: a thrown configuration error or a 400 response. */
  predicate IsRejection(o: Outcome)
  {
    o.Threw? || HasStatus(o, 400)
  }

  /** The outcome of one request, the calls it made and the state it leaves. */
  datatype Run = Run(outcome: Outcome, calls: seq<Call>, users: map<string, UserDoc>, metadata: map<string, string>)

  const MissingSecretMessage := "Please add WEBHOOK_SECRET from Clerk Dashboard to .env or .env.local"
  const MissingHeadersText := "Error occurred -- missing Svix headers"
  const VerifyFailedText := "Error occurred while verifying webhook"
  const MissingUserDataText := "Error occurred -- missing required user data"
  const CreateFailedText := "Error occurred while creating user"
  const MissingIdText := "Error occurred -- missing user ID"
  const UpdateFailedText := "Error occurred while updating user"
  const DeleteFailedText := "Error occurred while deleting user"
  const NotHandledText := "Event not handled"

  predicate HeadersPresent(h: SvixHeaders)
  {
    TruthyString(h.svixId) && TruthyString(h.svixTimestamp) && TruthyString(h.svixSignature)
  }

  /** `email_addresses[0]?.email_address` is truthy. */
  predicate HasFirstEmail(data: EventData)
  {
    |data.emailAddresses| > 0 && data.emailAddresses[0].emailAddress != ""
  }

  /** The record the `user.created` branch builds from the event. */
  function CreateParamsOf(data: EventData): (user: CreateUserParams)
    requires HasFirstEmail(data) && data.username.Some?
    ensures user.clerkId == data.id && user.email == data.emailAddresses[0].emailAddress
    ensures user.username == data.username.value
    ensures user.firstName == data.firstName && user.lastName == data.lastName && user.photo == data.imageUrl
  {
    CreateUserParams(data.id, data.emailAddresses[0].emailAddress, data.username.value,
                     data.firstName, data.lastName, data.imageUrl)
  }

  /** The fields the `user.updated` branch passes to `updateUser`. */
  function UpdateParamsOf(data: EventData): (update: UpdateUserParams)
    ensures update.firstName == data.firstName && update.lastName == data.lastName
    ensures update.username == data.username && update.photo == data.imageUrl
  {
    UpdateUserParams(data.firstName, data.lastName, data.username, data.imageUrl)
  }

  // ---------------------------------------------------------------------
  // The handler, as a function of its inputs
  // ---------------------------------------------------------------------

  /**
   * The `user.created` branch after verification: 400 without a first email
   * or a username; otherwise exactly one `createUser` call, then the metadata
   * write-back only for a truthy result, and 500 if either throws.
   */
  function OnUserCreated(data: EventData, oracle: Oracle, users: map<string, UserDoc>,
                         metadata: map<string, string>): (run: Run)
    ensures !HasFirstEmail(data) || !TruthyString(data.username) <==> HasStatus(run.outcome, 400)
    ensures HasStatus(run.outcome, 400) ==> run.calls == [] && run.users == users && run.metadata == metadata
    ensures !HasStatus(run.outcome, 400) ==>
              |run.calls| > 0 && run.calls[0] == CreateUserCall(CreateParamsOf(data))
              && (oracle.create.CreateReturns? <==> |run.calls| == 2)
              && (!oracle.create.CreateReturns? ==> |run.calls| == 1)
              && (oracle.create.CreateReturns? ==> run.calls[1] == UpdateUserMetadataCall(data.id, oracle.create.internalId))
              && (HasStatus(run.outcome, 500) <==> oracle.create.CreateThrows? || (oracle.create.CreateReturns? && !oracle.metadataWriteSucceeds))
              && (HasStatus(run.outcome, 500) ==> run.outcome.response == Text(500, CreateFailedText))
    ensures !HasStatus(run.outcome, 400) && oracle.create.CreateReturnsNull? ==> run.outcome == Returned(Json("OK", None))
    ensures !HasStatus(run.outcome, 400) && oracle.create.CreateReturns? && oracle.metadataWriteSucceeds ==>
              run.outcome == Returned(Json("OK", Some(NewDoc(CreateParamsOf(data), oracle.create.internalId))))
    ensures !HasStatus(run.outcome, 400) && oracle.create.CreateReturns? ==>
              run.users == users[data.id := NewDoc(CreateParamsOf(data), oracle.create.internalId)]
    ensures !(HasStatus(run.outcome, 400) || oracle.create.CreateReturns?) ==> run.users == users
    ensures run.metadata == if !HasStatus(run.outcome, 400) && oracle.create.CreateReturns? && oracle.metadataWriteSucceeds
                            then metadata[data.id := oracle.create.internalId]
                            else metadata
    ensures BranchInvariants(run, users, metadata)
  {
    if !HasFirstEmail(data) || !TruthyString(data.username) then
      Run(Returned(Text(400, MissingUserDataText)), [], users, metadata)
    else
      var user := CreateParamsOf(data);
      match oracle.create
      case CreateThrows =>
        Run(Returned(Text(500, CreateFailedText)), [CreateUserCall(user)], users, metadata)
      case CreateReturnsNull =>
        Run(Returned(Json("OK", None)), [CreateUserCall(user)], users, metadata)
      case CreateReturns(internalId) =>
        var doc := NewDoc(user, internalId);
        var calls := [CreateUserCall(user), UpdateUserMetadataCall(data.id, internalId)];
        if oracle.metadataWriteSucceeds then
          Run(Returned(Json("OK", Some(doc))), calls, users[user.clerkId := doc], metadata[data.id := internalId])
        else
          Run(Returned(Text(500, CreateFailedText)), calls, users[user.clerkId := doc], metadata)
  }

  /** The store changes the document under `id`: it answers with a document and holds one there. */
  predicate Applies(reply: StoreReply, id: string, users: map<string, UserDoc>)
  {
    reply.StoreReturnsDocument? && id in users
  }

  /**
   * The `user.updated` branch after verification: 400 for an empty id and no
   * call; otherwise exactly one `updateUser(id, …)` call, then 500 if it
   * throws, and otherwise 200 with whatever it returned: the patched document,
   * or null with the store unchanged.
   */
  function OnUserUpdated(data: EventData, oracle: Oracle, users: map<string, UserDoc>,
                         metadata: map<string, string>): (run: Run)
    ensures run.metadata == metadata
    ensures data.id == "" <==> HasStatus(run.outcome, 400)
    ensures data.id == "" ==> run.calls == [] && run.users == users
    ensures data.id != "" ==> run.calls == [UpdateUserCall(data.id, UpdateParamsOf(data))]
    ensures data.id != "" && oracle.update.StoreThrows? ==> run.outcome == Returned(Text(500, UpdateFailedText))
    ensures data.id != "" && !oracle.update.StoreThrows? ==> run.outcome.Returned? && run.outcome.response.Json?
    ensures data.id != "" && Applies(oracle.update, data.id, users) ==>
              data.id in run.users
              && run.outcome == Returned(Json("OK", Some(run.users[data.id])))
              && run.users == users[data.id := Patched(users[data.id], UpdateParamsOf(data))]
    ensures data.id != "" && !oracle.update.StoreThrows? && !Applies(oracle.update, data.id, users) ==>
              run.outcome == Returned(Json("OK", None))
    ensures !Applies(oracle.update, data.id, users) ==> run.users == users
    ensures BranchInvariants(run, users, metadata)
  {
    if data.id == "" then
      Run(Returned(Text(400, MissingIdText)), [], users, metadata)
    else
      var update := UpdateParamsOf(data);
      var calls := [UpdateUserCall(data.id, update)];
      if oracle.update.StoreThrows? then
        Run(Returned(Text(500, UpdateFailedText)), calls, users, metadata)
      else if Applies(oracle.update, data.id, users) then
        var doc := Patched(users[data.id], update);
        Run(Returned(Json("OK", Some(doc))), calls, users[data.id := doc], metadata)
      else
        Run(Returned(Json("OK", None)), calls, users, metadata)
  }

  /**
   * The `user.deleted` branch after verification: 400 for an empty id and no
   * call; otherwise exactly one `deleteUser(id)` call, then 500 if it throws,
   * and otherwise 200 with whatever it returned: the deleted document, which
   * is gone from the store, or null with the store unchanged.
   */
  function OnUserDeleted(data: EventData, oracle: Oracle, users: map<string, UserDoc>,
                         metadata: map<string, string>): (run: Run)
    ensures run.metadata == metadata
    ensures data.id == "" <==> HasStatus(run.outcome, 400)
    ensures data.id == "" ==> run.calls == [] && run.users == users
    ensures data.id != "" ==> run.calls == [DeleteUserCall(data.id)]
    ensures data.id != "" && oracle.delete.StoreThrows? ==> run.outcome == Returned(Text(500, DeleteFailedText))
    ensures data.id != "" && !oracle.delete.StoreThrows? ==> run.outcome.Returned? && run.outcome.response.Json?
    ensures data.id != "" && Applies(oracle.delete, data.id, users) ==>
              run.outcome == Returned(Json("OK", Some(users[data.id])))
              && data.id !in run.users && run.users == users - {data.id}
    ensures data.id != "" && !oracle.delete.StoreThrows? && !Applies(oracle.delete, data.id, users) ==>
              run.outcome == Returned(Json("OK", None))
    ensures !Applies(oracle.delete, data.id, users) ==> run.users == users
    ensures BranchInvariants(run, users, metadata)
  {
    if data.id == "" then
      Run(Returned(Text(400, MissingIdText)), [], users, metadata)
    else
      var calls := [DeleteUserCall(data.id)];
      if oracle.delete.StoreThrows? then
        Run(Returned(Text(500, DeleteFailedText)), calls, users, metadata)
      else if Applies(oracle.delete, data.id, users) then
        Run(Returned(Json("OK", Some(users[data.id]))), calls, users - {data.id}, metadata)
      else
        Run(Returned(Json("OK", None)), calls, users, metadata)
  }

  /**
   * What every branch after verification keeps: it returns (never throws), a
   * 400 makes no call and changes nothing, it makes at most one store call,
   * and documents stay keyed by `clerkId`.
   */
  ghost predicate BranchInvariants(run: Run, users: map<string, UserDoc>, metadata: map<string, string>)
  {
    && run.outcome.Returned?
    && (HasStatus(run.outcome, 400) ==> run.calls == [] && run.users == users && run.metadata == metadata)
    && AtMostOneStoreCall(run.calls)
    && (WellKeyed(users) ==> WellKeyed(run.users))
  }

  /** The dispatch on `evt.type` once the event is verified. */
  function Dispatch(event: WebhookEvent, oracle: Oracle, users: map<string, UserDoc>,
                    metadata: map<string, string>): (run: Run)
    ensures BranchInvariants(run, users, metadata)
    ensures event.eventType !in {"user.created", "user.updated", "user.deleted"} ==>
              run == Run(Returned(Text(200, NotHandledText)), [], users, metadata)
  {
    if event.eventType == "user.created" then OnUserCreated(event.data, oracle, users, metadata)
    else if event.eventType == "user.updated" then OnUserUpdated(event.data, oracle, users, metadata)
    else if event.eventType == "user.deleted" then OnUserDeleted(event.data, oracle, users, metadata)
    else Run(Returned(Text(200, NotHandledText)), [], users, metadata)
  }

  /** A call that is not a store call, put in front, adds no store call. */
  lemma PrependNonStoreCall(c: Call, calls: seq<Call>)
    requires !IsStoreCall(c)
    ensures AtMostOneStoreCall(calls) ==> AtMostOneStoreCall([c] + calls)
    ensures NoStoreCall(calls) ==> NoStoreCall([c] + calls)
  {
  }

  /**
   * `POST`: the whole handler. Its contract states what holds on every path:
   * a rejection makes no store call and changes nothing, a request makes at
   * most one store call, it throws exactly when the secret is missing or (once
   * the headers are present) cannot be decoded, the verifier is called exactly
   * when the secret decodes and all three headers are present, and documents
   * stay keyed by `clerkId`.
   */
  function Handle(secret: Option<string>, req: Request, oracle: Oracle,
                  users: map<string, UserDoc>, metadata: map<string, string>): (run: Run)
    ensures IsRejection(run.outcome) ==> NoStoreCall(run.calls) && run.users == users && run.metadata == metadata
    ensures AtMostOneStoreCall(run.calls)
    ensures run.outcome.Threw? <==> !TruthyString(secret) || (HeadersPresent(req.headers) && oracle.secretError.Some?)
    ensures (|run.calls| > 0 && run.calls[0] == VerifyCall(req.headers))
            <==> TruthyString(secret) && HeadersPresent(req.headers) && oracle.secretError.None?
    ensures WellKeyed(users) ==> WellKeyed(run.users)
  {
    if !TruthyString(secret) then
      Run(Threw(MissingSecretMessage), [], users, metadata)
    else if !HeadersPresent(req.headers) then
      Run(Returned(Text(400, MissingHeadersText)), [], users, metadata)
    else if oracle.secretError.Some? then
      Run(Threw(oracle.secretError.value), [], users, metadata)
    else if !oracle.signatureValid then
      Run(Returned(Text(400, VerifyFailedText)), [VerifyCall(req.headers)], users, metadata)
    else
      var branch := Dispatch(req.event, oracle, users, metadata);
      PrependNonStoreCall(VerifyCall(req.headers), branch.calls);
      Run(branch.outcome, [VerifyCall(req.headers)] + branch.calls, branch.users, branch.metadata)
  }

  // ---------------------------------------------------------------------
  // Properties of the handler
  // ---------------------------------------------------------------------

  /** Without a secret the handler throws before reading a header or calling anything. */
  lemma MissingSecretThrows(secret: Option<string>, req: Request, oracle: Oracle,
                            users: map<string, UserDoc>, metadata: map<string, string>)
    requires !TruthyString(secret)
    ensures Handle(secret, req, oracle, users, metadata) == Run(Threw(MissingSecretMessage), [], users, metadata)
  {
  }

  /** A missing or empty Svix header gives 400 with neither the verifier nor the store called. */
  lemma MissingHeadersRejected(secret: Option<string>, req: Request, oracle: Oracle,
                               users: map<string, UserDoc>, metadata: map<string, string>)
    requires TruthyString(secret) && !HeadersPresent(req.headers)
    ensures Handle(secret, req, oracle, users, metadata) == Run(Returned(Text(400, MissingHeadersText)), [], users, metadata)
  {
  }

  /**
   * A secret the Svix constructor cannot decode makes the handler throw that
   * error, uncaught, once the headers are present, before any call.
   */
  lemma UndecodableSecretThrows(secret: Option<string>, req: Request, oracle: Oracle,
                                users: map<string, UserDoc>, metadata: map<string, string>)
    requires TruthyString(secret) && HeadersPresent(req.headers) && oracle.secretError.Some?
    ensures Handle(secret, req, oracle, users, metadata) == Run(Threw(oracle.secretError.value), [], users, metadata)
  {
  }

  /** A signature the verifier rejects gives 400 after the one verifier call, with no store call. */
  lemma VerificationFailureRejected(secret: Option<string>, req: Request, oracle: Oracle,
                                    users: map<string, UserDoc>, metadata: map<string, string>)
    requires TruthyString(secret) && HeadersPresent(req.headers) && oracle.secretError.None? && !oracle.signatureValid
    ensures Handle(secret, req, oracle, users, metadata)
            == Run(Returned(Text(400, VerifyFailedText)), [VerifyCall(req.headers)], users, metadata)
  {
  }

  /** The preconditions under which a request reaches the event dispatch. */
  predicate Dispatched(secret: Option<string>, req: Request, oracle: Oracle)
  {
    TruthyString(secret) && HeadersPresent(req.headers) && oracle.secretError.None? && oracle.signatureValid
  }

  /**
   * A verified `user.created` event: 400 with no store call when the first
   * email or the username is missing; otherwise the one `createUser` call
   * carries the fields mapped from the event, the metadata write-back carries
   * the new `_id` and happens only for a truthy result, and a throw from
   * either gives 500 even though the document may already be stored.
   */
  lemma UserCreatedDispatch(secret: Option<string>, req: Request, oracle: Oracle,
                            users: map<string, UserDoc>, metadata: map<string, string>)
    requires Dispatched(secret, req, oracle) && req.event.eventType == "user.created"
    ensures var run := Handle(secret, req, oracle, users, metadata);
            var data := req.event.data;
            && (!HasFirstEmail(data) || !TruthyString(data.username) ==>
                  run == Run(Returned(Text(400, MissingUserDataText)), [VerifyCall(req.headers)], users, metadata))
            && (HasFirstEmail(data) && TruthyString(data.username) ==>
                  && run.calls[1] == CreateUserCall(CreateUserParams(data.id, data.emailAddresses[0].emailAddress,
                                                                     data.username.value, data.firstName,
                                                                     data.lastName, data.imageUrl))
                  && (oracle.create.CreateThrows? ==> run.outcome == Returned(Text(500, CreateFailedText)) && |run.calls| == 2)
                  && (oracle.create.CreateReturnsNull? ==> run.outcome == Returned(Json("OK", None)) && |run.calls| == 2)
                  && (run.metadata == if oracle.create.CreateReturns? && oracle.metadataWriteSucceeds
                                      then metadata[data.id := oracle.create.internalId]
                                      else metadata)
                  && (oracle.create.CreateReturns? ==>
                        && run.calls[2] == UpdateUserMetadataCall(data.id, oracle.create.internalId)
                        && data.id in run.users && run.users[data.id].internalId == oracle.create.internalId
                        && run.outcome == (if oracle.metadataWriteSucceeds
                                           then Returned(Json("OK", Some(run.users[data.id])))
                                           else Returned(Text(500, CreateFailedText)))))
  {
  }

  /**
   * A verified `user.updated` event: 400 with no call for an empty id;
   * otherwise exactly one `updateUser(id, …)`, then 500 exactly when it
   * throws; a 200 with a document carries the updated one, whose identity and
   * email are kept; a 200 with null and a 500 change nothing.
   */
  lemma UserUpdatedDispatch(secret: Option<string>, req: Request, oracle: Oracle,
                            users: map<string, UserDoc>, metadata: map<string, string>)
    requires Dispatched(secret, req, oracle) && req.event.eventType == "user.updated"
    ensures var run := Handle(secret, req, oracle, users, metadata);
            var id := req.event.data.id;
            && (id == "" ==> run == Run(Returned(Text(400, MissingIdText)), [VerifyCall(req.headers)], users, metadata))
            && (id != "" ==> run.calls == [VerifyCall(req.headers), UpdateUserCall(id, UpdateParamsOf(req.event.data))])
            && (id != "" ==> (HasStatus(run.outcome, 500) <==> oracle.update.StoreThrows?))
            && (id != "" ==> HasStatus(run.outcome, 200) || HasStatus(run.outcome, 500))
            && (run.outcome.Returned? && run.outcome.response.Json? && run.outcome.response.user.Some? ==>
                  && id in users && id in run.users
                  && run.outcome == Returned(Json("OK", Some(run.users[id])))
                  && run.users[id].clerkId == users[id].clerkId && run.users[id].email == users[id].email
                  && run.users[id].firstName == req.event.data.firstName)
            && (run.outcome == Returned(Json("OK", None)) || HasStatus(run.outcome, 500) ==>
                  run.users == users && run.metadata == metadata)
  {
  }

  /**
   * A verified `user.deleted` event: 400 with no call for an empty id;
   * otherwise exactly one `deleteUser(id)`, then 500 exactly when it throws;
   * a 200 with a document carries the deleted one, after which no document is
   * stored under `id`; a 200 with null and a 500 change nothing.
   */
  lemma UserDeletedDispatch(secret: Option<string>, req: Request, oracle: Oracle,
                            users: map<string, UserDoc>, metadata: map<string, string>)
    requires Dispatched(secret, req, oracle) && req.event.eventType == "user.deleted"
    ensures var run := Handle(secret, req, oracle, users, metadata);
            var id := req.event.data.id;
            && (id == "" ==> run == Run(Returned(Text(400, MissingIdText)), [VerifyCall(req.headers)], users, metadata))
            && (id != "" ==> run.calls == [VerifyCall(req.headers), DeleteUserCall(id)])
            && (id != "" ==> (HasStatus(run.outcome, 500) <==> oracle.delete.StoreThrows?))
            && (id != "" ==> HasStatus(run.outcome, 200) || HasStatus(run.outcome, 500))
            && (run.outcome.Returned? && run.outcome.response.Json? && run.outcome.response.user.Some? ==>
                  id in users && run.outcome == Returned(Json("OK", Some(users[id]))) && id !in run.users)
            && (run.outcome == Returned(Json("OK", None)) || HasStatus(run.outcome, 500) ==>
                  run.users == users && run.metadata == metadata)
  {
  }

  /** Any other event type is acknowledged with 200 "Event not handled" and changes nothing. */
  lemma UnhandledEventAcknowledged(secret: Option<string>, req: Request, oracle: Oracle,
                                   users: map<string, UserDoc>, metadata: map<string, string>)
    requires Dispatched(secret, req, oracle)
    requires req.event.eventType !in {"user.created", "user.updated", "user.deleted"}
    ensures Handle(secret, req, oracle, users, metadata)
            == Run(Returned(Text(200, NotHandledText)), [VerifyCall(req.headers)], users, metadata)
  {
  }

  // ---------------------------------------------------------------------
  // Many deliveries
  // ---------------------------------------------------------------------

  function CountStoreCalls(calls: seq<Call>): nat
  {
    if calls == [] then 0 else (if IsStoreCall(calls[0]) then 1 else 0) + CountStoreCalls(calls[1..])
  }

  lemma {:induction false} CountStoreCallsAppend(a: seq<Call>, b: seq<Call>)
    ensures CountStoreCalls(a + b) == CountStoreCalls(a) + CountStoreCalls(b)
  {
    if a == [] {
      assert a + b == b;
    } else {
      assert (a + b)[1..] == a[1..] + b;
      CountStoreCallsAppend(a[1..], b);
    }
  }

  lemma {:induction false} AtMostOneCounted(calls: seq<Call>)
    requires AtMostOneStoreCall(calls)
    ensures CountStoreCalls(calls) <= 1
  {
    if calls != [] {
      assert AtMostOneStoreCall(calls[1..]) by {
        forall i, j | 0 <= i < j < |calls[1..]|
          ensures !(IsStoreCall(calls[1..][i]) && IsStoreCall(calls[1..][j]))
        {
          assert calls[1..][i] == calls[i + 1] && calls[1..][j] == calls[j + 1];
        }
      }
      AtMostOneCounted(calls[1..]);
      if IsStoreCall(calls[0]) {
        assert NoStoreCall(calls[1..]) by {
          forall j | 0 <= j < |calls[1..]| ensures !IsStoreCall(calls[1..][j]) {
            assert calls[1..][j] == calls[j + 1];
          }
        }
        NoStoreCallCounted(calls[1..]);
      }
    }
  }

  lemma {:induction false} NoStoreCallCounted(calls: seq<Call>)
    requires NoStoreCall(calls)
    ensures CountStoreCalls(calls) == 0
  {
    if calls != [] {
      assert NoStoreCall(calls[1..]) by {
        forall j | 0 <= j < |calls[1..]| ensures !IsStoreCall(calls[1..][j]) {
          assert calls[1..][j] == calls[j + 1];
        }
      }
      NoStoreCallCounted(calls[1..]);
    }
  }

  /** The outcomes, calls and final state of handling a sequence of deliveries in order. */
  datatype Deliveries = Deliveries(outcomes: seq<Outcome>, calls: seq<Call>,
                                   users: map<string, UserDoc>, metadata: map<string, string>)

  function HandleAll(secret: Option<string>, reqs: seq<Request>, oracles: seq<Oracle>,
                     users: map<string, UserDoc>, metadata: map<string, string>): (d: Deliveries)
    requires |reqs| == |oracles|
    decreases |reqs|
  {
    if reqs == [] then Deliveries([], [], users, metadata)
    else
      var first := Handle(secret, reqs[0], oracles[0], users, metadata);
      var rest := HandleAll(secret, reqs[1..], oracles[1..], first.users, first.metadata);
      Deliveries([first.outcome] + rest.outcomes, first.calls + rest.calls, rest.users, rest.metadata)
  }

  /**
   * Over any sequence of deliveries, whatever the store answers, there are
   * never more store calls than deliveries, and documents stay keyed by
   * their `clerkId`.
   */
  lemma {:induction false} DeliveriesBounded(secret: Option<string>, reqs: seq<Request>, oracles: seq<Oracle>,
                                             users: map<string, UserDoc>, metadata: map<string, string>)
    requires |reqs| == |oracles|
    requires WellKeyed(users)
    ensures CountStoreCalls(HandleAll(secret, reqs, oracles, users, metadata).calls) <= |reqs|
    ensures WellKeyed(HandleAll(secret, reqs, oracles, users, metadata).users)
    decreases |reqs|
  {
    if reqs != [] {
      var first := Handle(secret, reqs[0], oracles[0], users, metadata);
      DeliveriesBounded(secret, reqs[1..], oracles[1..], first.users, first.metadata);
      var rest := HandleAll(secret, reqs[1..], oracles[1..], first.users, first.metadata);
      CountStoreCallsAppend(first.calls, rest.calls);
      AtMostOneCounted(first.calls);
    }
  }

  /** Deliveries that are all rejected leave the store and the metadata exactly as they were. */
  lemma {:induction false} RejectedDeliveriesChangeNothing(secret: Option<string>, reqs: seq<Request>, oracles: seq<Oracle>,
                                                           users: map<string, UserDoc>, metadata: map<string, string>)
    requires |reqs| == |oracles|
    requires forall i :: 0 <= i < |reqs| ==> !Dispatched(secret, reqs[i], oracles[i])
    ensures HandleAll(secret, reqs, oracles, users, metadata).users == users
    ensures HandleAll(secret, reqs, oracles, users, metadata).metadata == metadata
    ensures CountStoreCalls(HandleAll(secret, reqs, oracles, users, metadata).calls) == 0
    decreases |reqs|
  {
    if reqs != [] {
      var first := Handle(secret, reqs[0], oracles[0], users, metadata);
      assert IsRejection(first.outcome);
      RejectedDeliveriesChangeNothing(secret, reqs[1..], oracles[1..], users, metadata);
      var rest := HandleAll(secret, reqs[1..], oracles[1..], first.users, first.metadata);
      CountStoreCallsAppend(first.calls, rest.calls);
      NoStoreCallCounted(first.calls);
    }
  }

  // ---------------------------------------------------------------------
  // The handler as imperative code over the services it calls
  // ---------------------------------------------------------------------

  /**
   * The services the handler talks to: the user store (documents by
   * `clerkId`), Clerk's public metadata (`userId` by Clerk id), and a log of
   * every call made to them or to the Svix verifier.
   */
  class Backend {
    var users: map<string, UserDoc>
    var metadata: map<string, string>
    var calls: seq<Call>

    constructor (users: map<string, UserDoc>, metadata: map<string, string>)
      ensures this.users == users && this.metadata == metadata && calls == []
    {
      this.users := users;
      this.metadata := metadata;
      calls := [];
    }

    /** `webhook.verify(body, headers)`: succeeds exactly when the signature is valid. */
    method Verify(headers: SvixHeaders, signatureValid: bool) returns (ok: bool)
      modifies this
      ensures ok == signatureValid
      ensures calls == old(calls) + [VerifyCall(headers)]
      ensures users == old(users) && metadata == old(metadata)
    {
      calls := calls + [VerifyCall(headers)];
      ok := signatureValid;
    }

    /** `createUser(user)`: throws, returns a falsy value, or stores and returns the new document. */
    method CreateUser(user: CreateUserParams, reply: CreateReply) returns (newUser: Result<Option<UserDoc>>)
      modifies this
      ensures calls == old(calls) + [CreateUserCall(user)]
      ensures metadata == old(metadata)
      ensures reply.CreateThrows? ==> newUser.Err? && users == old(users)
      ensures reply.CreateReturnsNull? ==> newUser == Ok(None) && users == old(users)
      ensures reply.CreateReturns? ==>
                newUser == Ok(Some(NewDoc(user, reply.internalId)))
                && users == old(users)[user.clerkId := NewDoc(user, reply.internalId)]
    {
      calls := calls + [CreateUserCall(user)];
      match reply
      case CreateThrows =>
        newUser := Err(CreateFailedText);
      case CreateReturnsNull =>
        newUser := Ok(None);
      case CreateReturns(internalId) =>
        var doc := NewDoc(user, internalId);
        users := users[user.clerkId := doc];
        newUser := Ok(Some(doc));
    }

    /** `clerkClient.users.updateUserMetadata(id, { publicMetadata: { userId } })`. */
    method UpdateUserMetadata(clerkId: string, userId: string, succeeds: bool) returns (ok: bool)
      modifies this
      ensures ok == succeeds
      ensures calls == old(calls) + [UpdateUserMetadataCall(clerkId, userId)]
      ensures users == old(users)
      ensures metadata == if succeeds then old(metadata)[clerkId := userId] else old(metadata)
    {
      calls := calls + [UpdateUserMetadataCall(clerkId, userId)];
      if succeeds {
        metadata := metadata[clerkId := userId];
      }
      ok := succeeds;
    }

    /** `updateUser(clerkId, update)`: throws, returns null, or patches the stored document and returns it. */
    method UpdateUser(clerkId: string, update: UpdateUserParams, reply: StoreReply) returns (updated: Result<Option<UserDoc>>)
      modifies this
      ensures calls == old(calls) + [UpdateUserCall(clerkId, update)]
      ensures metadata == old(metadata)
      ensures updated.Err? <==> reply.StoreThrows?
      ensures Applies(reply, clerkId, old(users)) ==>
                updated == Ok(Some(Patched(old(users)[clerkId], update)))
                && users == old(users)[clerkId := updated.value.value]
      ensures !Applies(reply, clerkId, old(users)) ==> users == old(users)
      ensures !reply.StoreThrows? && !Applies(reply, clerkId, old(users)) ==> updated == Ok(None)
    {
      calls := calls + [UpdateUserCall(clerkId, update)];
      if reply.StoreThrows? {
        updated := Err(UpdateFailedText);
      } else if Applies(reply, clerkId, users) {
        var doc := Patched(users[clerkId], update);
        users := users[clerkId := doc];
        updated := Ok(Some(doc));
      } else {
        updated := Ok(None);
      }
    }

    /** `deleteUser(clerkId)`: throws, returns null, or removes the stored document and returns it. */
    method DeleteUser(clerkId: string, reply: StoreReply) returns (deleted: Result<Option<UserDoc>>)
      modifies this
      ensures calls == old(calls) + [DeleteUserCall(clerkId)]
      ensures metadata == old(metadata)
      ensures deleted.Err? <==> reply.StoreThrows?
      ensures Applies(reply, clerkId, old(users)) ==>
                deleted == Ok(Some(old(users)[clerkId])) && users == old(users) - {clerkId}
      ensures !Applies(reply, clerkId, old(users)) ==> users == old(users)
      ensures !reply.StoreThrows? && !Applies(reply, clerkId, old(users)) ==> deleted == Ok(None)
    {
      calls := calls + [DeleteUserCall(clerkId)];
      if reply.StoreThrows? {
        deleted := Err(DeleteFailedText);
      } else if Applies(reply, clerkId, users) {
        deleted := Ok(Some(users[clerkId]));
        users := users - {clerkId};
      } else {
        deleted := Ok(None);
      }
    }

    /**
     * `POST(req)` with early returns, as written. It returns what `Handle`
     * says, leaves the store and the metadata as `Handle` says, and appends
     * exactly `Handle`'s calls to the log.
     */
    method Post(secret: Option<string>, req: Request, oracle: Oracle) returns (outcome: Outcome)
      modifies this
      ensures var run := Handle(secret, req, oracle, old(users), old(metadata));
              outcome == run.outcome && users == run.users && metadata == run.metadata
              && calls == old(calls) + run.calls
    {
      if !TruthyString(secret) {
        return Threw(MissingSecretMessage);
      }
      var headers := req.headers;
      if !TruthyString(headers.svixId) || !TruthyString(headers.svixTimestamp) || !TruthyString(headers.svixSignature) {
        return Returned(Text(400, MissingHeadersText));
      }
      if oracle.secretError.Some? {
        return Threw(oracle.secretError.value);
      }
      var verified := Verify(headers, oracle.signatureValid);
      if !verified {
        return Returned(Text(400, VerifyFailedText));
      }
      var data := req.event.data;
      var id := data.id;
      var eventType := req.event.eventType;

      if eventType == "user.created" {
        if !HasFirstEmail(data) || !TruthyString(data.username) {
          return Returned(Text(400, MissingUserDataText));
        }
        var user := CreateParamsOf(data);
        var newUser := CreateUser(user, oracle.create);
        if newUser.Err? {
          return Returned(Text(500, CreateFailedText));
        }
        if newUser.value.Some? {
          var written := UpdateUserMetadata(id, newUser.value.value.internalId, oracle.metadataWriteSucceeds);
          if !written {
            return Returned(Text(500, CreateFailedText));
          }
        }
        return Returned(Json("OK", newUser.value));
      }

      if eventType == "user.updated" {
        if id == "" {
          return Returned(Text(400, MissingIdText));
        }
        var user := UpdateParamsOf(data);
        var updatedUser := UpdateUser(id, user, oracle.update);
        if updatedUser.Err? {
          return Returned(Text(500, UpdateFailedText));
        }
        return Returned(Json("OK", updatedUser.value));
      }

      if eventType == "user.deleted" {
        if id == "" {
          return Returned(Text(400, MissingIdText));
        }
        var deletedUser := DeleteUser(id, oracle.delete);
        if deletedUser.Err? {
          return Returned(Text(500, DeleteFailedText));
        }
        return Returned(Json("OK", deletedUser.value));
      }

      return Returned(Text(200, NotHandledText));
    }
  }
}
