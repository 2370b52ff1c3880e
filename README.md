# Clerk user sync, utilities and connection cache, in Dafny

This project models the parts of the image-platform backend that contain
sequential logic, and proves properties of them:

- **The Clerk webhook endpoint** (`POST /api/webhooks/clerk`). The handler
  checks for the webhook secret, then for the three Svix headers, then has
  Svix verify the signature. It then dispatches on the event type to one
  call of the user store: `createUser`, which is followed by a write-back of
  the new `_id` into Clerk's public metadata, or `updateUser`, or
  `deleteUser`. `ClerkWebhook.Handle` is the handler as a function of the
  request, the secret, the answers of the code it calls (an `Oracle`) and
  the state of the store. `ClerkWebhook.Backend.Post` is the same handler
  written as imperative code over a class that holds the store map, the
  metadata map and a log of every outside call. Its contract says it does
  exactly what `Handle` says.
- **The helpers of `lib/utils.ts`**: the message chosen by `handleError`;
  `getImageSize`; the map-level effect of `formUrlQuery` and
  `removeKeysFromQuery`; the file name chosen by `download`; and
  `deepMergeObjects`. The last is a recursive method proved equal to a merge
  function, with lemmas about that function.
- **The memoized database connection** of `lib/database/mongoose.ts`. The
  `cached` `{ conn, promise }` object is a class shared through
  `global.mongoose`, and `connectToDatabase` is a method on it.
  `mongoose.connect` is an oracle, given as the way its promise settles.
  A pure function `Database.Connect` describes one call. Lemmas over
  sequences of calls show that a connect is started at most once and that a
  rejected promise is never retried.

Files: `wrappers.dfy` (Option, Result, string truthiness), `js_values.dfy`
(JavaScript values and truthiness), `utils.dfy`, `webhook.dfy`,
`database.dfy`.

Modelling decisions:

- A JavaScript number is an `int`, so it is falsy exactly when it is 0.
- `null`/`undefined` become `None` where the source allows them.
- A missing `data.id` is represented as `""`. Both are falsy, and the
  handler tests only truthiness.
- The user store is a map from `clerkId` to documents. `lib/actions/user.actions`
  is not part of this model, so the oracle decides whether each store call
  throws. No uniqueness or upsert rule is assumed: a duplicate create may
  fail or succeed, as the oracle says, and if it succeeds the map holds the
  new document under its `clerkId`.
- `updateUser` and `deleteUser` throw, return null, or change the document
  stored under the id and return it. A store with no document under the id
  has nothing to change, so it returns null then.

Behaviour of the code worth noting:

- Every throw from `createUser`, `updateUser` or `deleteUser` is caught and
  answered with 500 and the branch's fixed text
  (app/api/webhooks/clerk/route.ts:91-96, 120-125, 142-147).
- Whatever `updateUser` or `deleteUser` returns, `null` included, is sent
  back with 200 as `{ message: "OK", user }` (route.ts:117-119, 139-141).
- The metadata write-back sits inside the same `try` as `createUser`, so a
  throw from it gives 500 although the document has already been stored
  (route.ts:78-96).
- `user.updated` passes all four fields to `updateUser`, `null`s included
  (route.ts:109-114).
- The secret is read inside `POST`, and its absence throws out of the
  handler uncaught, on each request (route.ts:11-17). `new Webhook(secret)`
  sits outside the `try` around `verify`. A present secret the Svix
  constructor cannot decode therefore also throws uncaught, once the headers
  have been checked (route.ts:36-37).
- `connectToDatabase` never clears `cached.promise`, so a rejected connect
  promise is awaited again by every later call (lib/database/mongoose.ts:29-33).

## Model

| member | source | states |
|---|---|---|
| `Utils.HandleError` | lib/utils.ts:15-25 | always throws; a value `JSON.stringify` cannot serialize throws its TypeError instead; otherwise the new Error has the "Error: " prefix exactly for Error instances and strings, "Unknown error: " exactly otherwise, followed by the original message, string or serialization |
| `Utils.GetImageSize` | lib/utils.ts:103-115 | never 0; "fill" takes the aspect-ratio table entry, the image's own dimension otherwise, each falling back to 1000 when missing or 0; "fill" without an image throws |
| `Utils.FormUrlQuery` | lib/utils.ts:56-57 | the key set gains `key`, which maps to the string `value`; every other entry is kept |
| `Utils.RemoveKeysFromQuery` | lib/utils.ts:70-80 | a key survives iff it is not in `keysToRemove` and its value is not null or undefined; survivors keep their values |
| `Utils.RemoveUndoesForm` | lib/utils.ts:57 | setting a key and then removing it gives the same query as removing it alone |
| `Utils.FormCommutesWithClean` | lib/utils.ts:57 | setting a key that is not removed commutes with the removal and null clean-up |
| `Utils.IndexOf` | lib/utils.ts:131 | the position found holds the searched character and none occurs before it |
| `Utils.ReplaceFirst` | lib/utils.ts:131 | `replace(" ", "_")` changes only the first match: the string is unchanged without a match, else only that position changes |
| `Utils.ReplaceFirstRemovesOne` | lib/utils.ts:131 | replacing removes exactly one occurrence of the pattern when there is one |
| `Utils.DownloadName` | lib/utils.ts:118-131 | an empty URL throws the fixed message; an empty filename sets no name; otherwise the name is the filename with its first space turned to `_`, every other character kept, then ".png" |
| `Utils.DeepMergeObjects` | lib/utils.ts:139-162 | null/undefined `obj2` returns `obj1`; otherwise it equals the merge: the keys of both, `obj2`'s value where `obj1` lacks the key, `obj1`'s value unless both are objects, and the recursive merge where both are |
| `Utils.MergeWithEmpty` | lib/utils.ts:144-159 | merging with an empty `obj2` gives `obj1` |
| `Utils.MergeIntoEmpty` | lib/utils.ts:144-159 | merging an empty `obj1` gives `obj2` |
| `Utils.MergeIdempotent` | lib/utils.ts:144-159 | a map merged with itself is itself, at every depth |
| `Utils.ShallowWithoutNestedClash` | lib/utils.ts:144-159 | without objects on both sides of a key, the merge is the spread `{ ...obj2, ...obj1 }` |
| `Utils.Obj1WinsAtEveryDepth` | lib/utils.ts:148-157 | every value of `obj1` that is not a non-null object (null included), at any path, is found at that path in the merge |
| `Utils.Obj2SurvivesWhereObj1Absent` | lib/utils.ts:144-154 | a value of `obj2` below objects shared with `obj1` survives wherever `obj1` has nothing |
| `ClerkWebhook.NewDoc` | app/api/webhooks/clerk/route.ts:79 | the stored document keeps the record's clerkId and email and carries the generated `_id` |
| `ClerkWebhook.CreateParamsOf` | app/api/webhooks/clerk/route.ts:69-76 | the createUser record takes clerkId from `id`, email from the first email address, username, firstName from `first_name`, lastName from `last_name` and photo from `image_url` |
| `ClerkWebhook.UpdateParamsOf` | app/api/webhooks/clerk/route.ts:109-114 | the updateUser fields take firstName from `first_name`, lastName from `last_name`, username (null included) and photo from `image_url` |
| `ClerkWebhook.Patched` | app/api/webhooks/clerk/route.ts:117 | an update never changes the `_id`, the clerkId or the email |
| `ClerkWebhook.OnUserCreated` | app/api/webhooks/clerk/route.ts:60-97 | 400 with no call iff the first email or the username is missing; else one createUser call with the mapped record, and a metadata write-back exactly for a truthy result (one call otherwise); 500 "Error occurred while creating user" iff either throws; 200 `{OK, null}` for a falsy result; 200 `{OK, newUser}` after a successful write-back; the metadata records the new `_id` exactly after a successful write-back and is otherwise unchanged; the document stays stored even if the write-back fails |
| `ClerkWebhook.OnUserUpdated` | app/api/webhooks/clerk/route.ts:100-126 | 400 with no call iff the id is empty; else exactly one updateUser(id, …); 500 "Error occurred while updating user" iff it throws; otherwise 200 with what it returned: the patched document, or null with the store unchanged |
| `ClerkWebhook.OnUserDeleted` | app/api/webhooks/clerk/route.ts:128-148 | 400 with no call iff the id is empty; else exactly one deleteUser(id); 500 "Error occurred while deleting user" iff it throws; otherwise 200 with what it returned: the deleted document, which is then gone, or null with the store unchanged |
| `ClerkWebhook.Dispatch` | app/api/webhooks/clerk/route.ts:59-153 | every branch returns; any other event type gives 200 "Event not handled" with no call |
| `ClerkWebhook.Handle` | app/api/webhooks/clerk/route.ts:9-154 | a throw or a 400 makes no store call and changes nothing; at most one store call per request; it throws iff the secret is missing, or the headers are present and the Svix constructor cannot decode the secret; the verifier is called first iff the secret decodes and all headers are present; documents stay keyed by clerkId |
| `ClerkWebhook.MissingSecretThrows` | app/api/webhooks/clerk/route.ts:11-17 | without a secret: the configuration error, no call, nothing changed |
| `ClerkWebhook.MissingHeadersRejected` | app/api/webhooks/clerk/route.ts:19-30 | a missing svix-id, svix-timestamp or svix-signature gives 400 with neither verify nor a store call |
| `ClerkWebhook.UndecodableSecretThrows` | app/api/webhooks/clerk/route.ts:36-37 | once the headers are present, a secret the Svix constructor cannot decode makes the handler throw that error, uncaught, with no call and nothing changed |
| `ClerkWebhook.VerificationFailureRejected` | app/api/webhooks/clerk/route.ts:36-53 | a failed verification gives 400 after the one verify call, with no store call |
| `ClerkWebhook.UserCreatedDispatch` | app/api/webhooks/clerk/route.ts:60-97 | for a verified user.created request: the 400 case, the exact createUser record, the metadata write-back with the new `_id`, the metadata recording it exactly when that write-back succeeds, and 500 on either throw |
| `ClerkWebhook.UserUpdatedDispatch` | app/api/webhooks/clerk/route.ts:100-126 | for a verified user.updated request: 400 for an empty id; else one updateUser(id, …); 500 iff it throws; a 200 with a document keeps clerkId and email and takes the new firstName; a 200 with null or a 500 changes nothing |
| `ClerkWebhook.UserDeletedDispatch` | app/api/webhooks/clerk/route.ts:128-148 | for a verified user.deleted request: 400 for an empty id; else one deleteUser(id); 500 iff it throws; a 200 with a document carries the deleted one, after which it is gone; a 200 with null or a 500 changes nothing |
| `ClerkWebhook.UnhandledEventAcknowledged` | app/api/webhooks/clerk/route.ts:150-153 | any other event type gives 200 "Event not handled" with no store call |
| `ClerkWebhook.DeliveriesBounded` | app/api/webhooks/clerk/route.ts:9-154 | over any sequence of deliveries, there are no more store calls than deliveries, and documents stay keyed by clerkId |
| `ClerkWebhook.RejectedDeliveriesChangeNothing` | app/api/webhooks/clerk/route.ts:11-53 | deliveries that all fail a guard leave the store and the metadata unchanged and make no store call |
| `ClerkWebhook.Backend.Verify` | app/api/webhooks/clerk/route.ts:42-53 | verify succeeds iff the signature is valid and is logged; nothing else changes |
| `ClerkWebhook.Backend.CreateUser` | app/api/webhooks/clerk/route.ts:79 | createUser throws, returns null, or stores and returns the new document under its clerkId |
| `ClerkWebhook.Backend.UpdateUserMetadata` | app/api/webhooks/clerk/route.ts:82-88 | the write-back records `userId` for the Clerk id when it succeeds |
| `ClerkWebhook.Backend.UpdateUser` | app/api/webhooks/clerk/route.ts:117 | updateUser throws or returns null with the store unchanged, or patches the stored document and returns it |
| `ClerkWebhook.Backend.DeleteUser` | app/api/webhooks/clerk/route.ts:139 | deleteUser throws or returns null with the store unchanged, or removes the stored document and returns it |
| `ClerkWebhook.Backend.Post` | app/api/webhooks/clerk/route.ts:9-154 | the early-return handler returns `Handle`'s outcome, leaves the store and metadata as `Handle` says, and logs exactly `Handle`'s calls |
| `Database.Connect` | lib/database/mongoose.ts:22-36 | a cached conn is returned before the URL check; a missing URL throws the fixed message; connect starts iff no promise is cached, and then its promise is cached and awaited; a cached promise is never replaced; success caches and returns the awaited connection; a rejection throws its reason |
| `Database.ConnectMany` | lib/database/mongoose.ts:22-36 | one result per call, and a consistent cache stays consistent over any sequence of calls |
| `Database.FirstCallAwaitsConnect` | lib/database/mongoose.ts:29-33 | the first call on an empty cache with a URL starts connect once and gives what its promise settles to, and that promise stays cached |
| `Database.ConnectStartedAtMostOnce` | lib/database/mongoose.ts:29-30 | over any sequence of calls, connect is started at most once, and never once a promise is cached |
| `Database.RejectionIsPermanent` | lib/database/mongoose.ts:29-33 | after a rejection, every later call throws the same reason (or the missing-URL error) and nothing is retried or reset |
| `Database.CachedConnectionIsFinal` | lib/database/mongoose.ts:23 | once a conn is cached, every call returns it, whatever the URL, and nothing changes |
| `Database.DatabaseModule.constructor` | lib/database/mongoose.ts:16-20 | the module's cache is `global.mongoose` if set, else a fresh empty cache installed there |
| `Database.DatabaseModule.ConnectToDatabase` | lib/database/mongoose.ts:22-36 | the method does what `Connect` says to the shared cache, keeps at most one connect start per cache, and never resets a cached promise |
| `Database.LoadTwice` | lib/database/mongoose.ts:16-20 | two loads of the module in one process share one cache object |

## Left out

- Svix signature verification (HMAC-SHA256 under the Standard Webhooks signing scheme): a boolean in the oracle. The decoding of the secret by `new Webhook(secret)` (stripping `whsec_`, then base64) is not modelled either: whether it throws, and with what error, is an oracle field.
- `clerkClient.users.updateUserMetadata`, `createUser`, `updateUser` and `deleteUser`: their code is not part of this model. Their results come from the oracle. The store is an abstract map, and the metadata is a map from Clerk id to `userId`.
- `headers()`, `req.json()`, `JSON.stringify`, `NextResponse` and the `console` logging: framework I/O. The request is given as extracted fields, and responses as status, text or JSON envelope.
- A body that is not valid JSON, which would make `req.json()` throw: left out as framework I/O.
- `ClerkWebhook.CreateParamsOf`: when `data.id` is `undefined`, the source would store `clerkId: undefined`; the model stores `""`.
- Concurrency: two deliveries for one user, and callers racing on `connectToDatabase` before the first `await` completes. Each `await` is one atomic step, so the promise coalescing between concurrent callers is not modelled.
- `qs.parse`/`qs.stringify` (including `skipNulls`), `URLSearchParams` and `window.location.pathname`: only the map transformation on the parsed query is modelled.
- `Utils.RemoveKeysFromQuery`: the iteration order of `Object.keys` is not modelled. Maps are unordered, and the order of deletions does not change the result.
- `cn` (clsx/tailwind-merge), `shimmer`, `toBase64` and `dataUrl`: foreign calls and presentation.
- `debounce`: timers.
- The `fetch`, `Blob` and DOM part of `download`.
- JavaScript numbers: NaN, fractions and floating point are left out, since numbers are integers here.
- `Utils.DeepMergeObjects`: objects are values here, so two behaviours are not modelled. The source returns `obj1` itself for a null `obj2`, and unmerged keys hold the input objects by reference; the model cannot express this sharing. A cyclic object such as `a.self = a` makes the source recurse until the stack overflows, and such input cannot be built here. `Utils.MergeIdempotent` therefore holds only for acyclic objects.
- Arrays and prototype-inherited properties in `deepMergeObjects`: values are primitives or plain objects with their own keys (`hasOwnProperty`).
- `Utils.HandleError`: the `console.error` call; the text `JSON.stringify` produces for an unknown value, and the message of the TypeError it throws for a BigInt or a cyclic value, are inputs here.
- `ClerkWebhook.OnUserUpdated` and `ClerkWebhook.OnUserDeleted`: a store that returns null although it holds a document under the id is covered, but one that returns a document it does not hold is not: with nothing stored under the id, a non-throwing reply is taken to be null.
- `Utils.GetImageSize`: the message of the TypeError thrown for a missing image on the "fill" path is the engine's, and is just "TypeError" here. The contents of `aspectRatioOptions` are not part of this model; it is a parameter.
- The `mongoose.connect` options (`dbName`, `bufferCommands`) and connection drops after a successful connect.
- lib/database/models/image.model.ts (a schema declaration without logic) and middleware.ts (route-matcher configuration).
