# banana-service: application deletion, message dismissal and the authentication facade

This project is a Dafny model of three parts of the banana-service notification service, with proofs about each.

- **Deleting an application** (`DeleteApplicationOperation`, module `ApplicationDeletion`). The request is checked, the application is fetched, and the caller must be one of its owners. Then come four best-effort steps, each isolated from the others' failures:
  1. Delete the icon and its thumbnails, then the media stored under the application's own id.
  2. Enumerate the followers and remove each following.
  3. Delete the application's messages.
  4. Save a deletion event for every owner and every follower.

  Last comes the one authoritative `deleteApplication`, whose failure reaches the caller.
- **Dismissing messages** (`DismissMessageOperation`, module `MessageDismissal`). The request is checked first. With `dismissAll`, the whole inbox is cleared with one bulk delete whose failure reaches the caller. Otherwise the single message id and the id list are merged into a set. One isolated delete is tried per id, and the answer is the size of that set.
- **The authentication facade** (`AuthenticationLayer`, module `Authentication`). Its behaviour is fixed by its unit tests, so the model is built from them. A guarded call:
  - rejects a missing request as an invalid argument;
  - rejects a request without a token as an invalid token;
  - asks the authentication service to verify the token id;
  - only then forwards the same request to the delegate, and returns the delegate's reply unchanged.

  `getApiVersion` goes to the delegate without authentication.

Every collaborator (the repositories, the inbox, the authentication service, the delegate) is a class that records each call it receives in a log. The log plays the part of the mock interaction records in the tests. For the repositories and the inbox, an oracle decides, from the log so far and the call, whether the call throws and what a lookup returns. So a repository may answer differently after earlier calls. The facade's two collaborators answer from the call alone: the authentication service rejects a fixed set of token ids, and the delegate answers each operation and request in a fixed way, as the tests' mocks do.

Each operation is an imperative method, proved against a specification function:
- `ApplicationDeletion.Run` gives the outcome and the exact call sequence;
- `MessageDismissal.Expected` gives the outcome, and `Dismissal` the calls made;
- `Authentication.GuardedReply`, `VerifyCalls` and `DelegateCalls` give the reply and the calls to each collaborator.

The properties are lemmas about those functions.

Validation rules the operations use but do not define are function-valued parameters (`Rules`), so every result holds for any such rule. These are: `validApplicationId`, `validUserId`, `validUUID`, `validMessageId`, and the emptiness test that `RequestAssertions.isNullOrEmpty` applies to a set message id. Two string tests keep their library meaning:
- Guava's `Strings.isNullOrEmpty`: null or `""`.
- Alchemy's `nonEmptyString`: set and at least one character.

Remote calls that throw are modelled as their thrift `TException` failures. The event id and the timestamp that the deletion event gets from a UUID generator and the clock are parameters of `Process`.

## Model

| member | source | states |
|---|---|---|
| ApplicationDeletion.Good | src/main/java/tech/aroma/service/operations/DeleteApplicationOperation.java:116-129 | the request check: the request is present, its application id passes `validApplicationId`, it has a token, and the token's user id passes `validUserId`; its consequences are stated by `InvalidRequestMakesNoCall` |
| ApplicationDeletion.OwnerOfApp | src/main/java/tech/aroma/service/operations/DeleteApplicationOperation.java:131-139 | the caller's user id is set and is an element of the application's owners; `NonOwnerIsUnauthorized` states what follows when it fails |
| ApplicationDeletion.GetOwners | src/main/java/tech/aroma/service/operations/DeleteApplicationOperation.java:239-244 | one user per owner id, in the owners' order, each carrying that id |
| ApplicationDeletion.CreateEventThatAppWasDeletedBy | src/main/java/tech/aroma/service/operations/DeleteApplicationOperation.java:246-257 | the deletion event built from the caller, the application, the event id and the timestamp; `EventDescribesDeletion` states its fields as saved |
| ApplicationDeletion.Run | src/main/java/tech/aroma/service/operations/DeleteApplicationOperation.java:92-114 | what process does for a given log: the outcome and the calls in order; `Process` is proved to do exactly this and the lemmas of this table state its properties |
| ApplicationDeletion.InvalidRequestMakesNoCall | src/main/java/tech/aroma/service/operations/DeleteApplicationOperation.java:116-129 | the outcome is InvalidArgument exactly when the request is missing, has an invalid application id, has no token, or has an invalid user id; then no repository call is made, `getById` included |
| ApplicationDeletion.LookupFailurePropagates | src/main/java/tech/aroma/service/operations/DeleteApplicationOperation.java:98-110 | when `getById` throws, the operation fails with that call's failure, and the lookup is the only call made |
| ApplicationDeletion.NonOwnerIsUnauthorized | src/main/java/tech/aroma/service/operations/DeleteApplicationOperation.java:98-103 | the outcome is Unauthorized exactly when a valid request's application was fetched and the caller's user id is not among its owners; then `getById` is the only call (no media, follower, message, event or application delete) |
| ApplicationDeletion.MediaCleanupKeys | src/main/java/tech/aroma/service/operations/DeleteApplicationOperation.java:141-151 | the media step makes media calls only, and tries `deleteMedia` on exactly the application id and, when non-empty, the icon id |
| ApplicationDeletion.MediaCleanupPairsThumbnails | src/main/java/tech/aroma/service/operations/DeleteApplicationOperation.java:153-164 | a thumbnail delete comes directly after a `deleteMedia` of the same key that did not throw; a `deleteMedia` that did not throw is directly followed by its thumbnail delete; a failure on one key leaves the other key's pair alone |
| ApplicationDeletion.UnfollowsCount | src/main/java/tech/aroma/service/operations/DeleteApplicationOperation.java:185-187 | the unfollow calls hold `deleteFollowing(u, app)` as many times as u appears among the followers |
| ApplicationDeletion.FollowerRemovalAttemptsEveryFollower | src/main/java/tech/aroma/service/operations/DeleteApplicationOperation.java:166-190 | enumeration comes first; if it throws, the list handed on is empty and nothing else is tried; otherwise the list handed on is the one enumerated, and `deleteFollowing(userId, appId)` is tried once per follower, whichever of those deletes throw |
| ApplicationDeletion.SavesCount | src/main/java/tech/aroma/service/operations/DeleteApplicationOperation.java:235-236 | the saves hold `saveEvent(event, u)` as many times as u appears among the users to notify |
| ApplicationDeletion.UsersWithIdsCount | src/main/java/tech/aroma/service/operations/DeleteApplicationOperation.java:239-244 | the owners as users have one user per owner id, each id kept as many times as it appears |
| ApplicationDeletion.NotificationReachesOwnersAndFollowers | src/main/java/tech/aroma/service/operations/DeleteApplicationOperation.java:228-244 | the event is saved once per owner plus once per follower, with no deduplication (a user who is both gets two saves), and every save carries the same event |
| ApplicationDeletion.CascadeOrdered | src/main/java/tech/aroma/service/operations/DeleteApplicationOperation.java:105-108 | the four best-effort steps make their calls in stage order: media, then followers, then messages, then events |
| ApplicationDeletion.CascadeContents | src/main/java/tech/aroma/service/operations/DeleteApplicationOperation.java:105-108 | whatever fails, the best-effort steps try exactly the media deletes of the media step, enumerate the followers, delete the messages, and save only the deletion event |
| ApplicationDeletion.CallsFollowCascadeOrder | src/main/java/tech/aroma/service/operations/DeleteApplicationOperation.java:98-110 | every run makes its calls in order: lookup; media; follower enumeration and removals; message delete; event saves; application delete |
| ApplicationDeletion.CommitIsLastAndDecidesOutcome | src/main/java/tech/aroma/service/operations/DeleteApplicationOperation.java:105-113 | on the authorized path `deleteApplication(app.applicationId)` is the last call and the only one of its kind; the operation succeeds exactly when it does not throw, and otherwise fails with its failure even though cleanup already ran; no cleanup failure changes the outcome |
| ApplicationDeletion.CleanupIsAttempted | src/main/java/tech/aroma/service/operations/DeleteApplicationOperation.java:141-214 | on the authorized path, whatever fails, the media deletes are tried on the application id and the icon id when set (and no other key), the followers are enumerated, and the messages are deleted |
| ApplicationDeletion.EventDescribesDeletion | src/main/java/tech/aroma/service/operations/DeleteApplicationOperation.java:246-279 | every saved event names the deleted application and its id. Its actor is the caller, it carries the given event id and timestamp, and its message is "<name> has been deleted", with "null" for an unset name |
| ApplicationDeletion.Repositories.GetById | src/main/java/tech/aroma/service/operations/DeleteApplicationOperation.java:98 | records the lookup, and returns the oracle's application unless the call throws |
| ApplicationDeletion.Repositories.GetApplicationFollowers | src/main/java/tech/aroma/service/operations/DeleteApplicationOperation.java:183 | records the enumeration, and returns the oracle's followers unless the call throws |
| ApplicationDeletion.DeleteApplicationOperation.Process | src/main/java/tech/aroma/service/operations/DeleteApplicationOperation.java:92-114 | the outcome and the calls made are exactly those of `Run` for the log before the call |
| ApplicationDeletion.DeleteApplicationOperation.DeleteOwnedApplication | src/main/java/tech/aroma/service/operations/DeleteApplicationOperation.java:105-113 | after the ownership check: the four steps, then the application delete; the outcome and calls are those of `Committed` |
| ApplicationDeletion.DeleteApplicationOperation.TryToDeleteMediaFor | src/main/java/tech/aroma/service/operations/DeleteApplicationOperation.java:141-151 | the calls made are the icon pair (when the icon id is not null or empty), then the application id's pair |
| ApplicationDeletion.DeleteApplicationOperation.DeleteIcon | src/main/java/tech/aroma/service/operations/DeleteApplicationOperation.java:153-164 | `deleteMedia`, then `deleteAllThumbnails` only if `deleteMedia` did not throw; nothing escapes |
| ApplicationDeletion.DeleteApplicationOperation.TryToRemoveAllFollowersFor | src/main/java/tech/aroma/service/operations/DeleteApplicationOperation.java:166-177 | the calls and the returned list are those of `FollowerRemoval`: the empty list when enumeration throws |
| ApplicationDeletion.DeleteApplicationOperation.RemoveAllFollowersFor | src/main/java/tech/aroma/service/operations/DeleteApplicationOperation.java:179-190 | the enumeration, and if it does not throw, one `deleteFollowing` per follower in list order and the followers returned |
| ApplicationDeletion.DeleteApplicationOperation.DeleteFollowing | src/main/java/tech/aroma/service/operations/DeleteApplicationOperation.java:192-202 | one `deleteFollowing(userId, applicationId)` call; its failure is swallowed |
| ApplicationDeletion.DeleteApplicationOperation.TryToDeleteAllMessagesFor | src/main/java/tech/aroma/service/operations/DeleteApplicationOperation.java:204-214 | one `deleteAllMessages(app.applicationId)` call; its failure is swallowed |
| ApplicationDeletion.DeleteApplicationOperation.SendNotificationThatAppWasDeletedBy | src/main/java/tech/aroma/service/operations/DeleteApplicationOperation.java:216-237 | one save of the deletion event per owner, then per follower, in list order |
| ApplicationDeletion.DeleteApplicationOperation.TryToSave | src/main/java/tech/aroma/service/operations/DeleteApplicationOperation.java:259-269 | one `saveEvent(event, user)` call; its failure is swallowed |
| MessageDismissal.Good | src/main/java/tech/aroma/banana/service/operations/DismissMessageOperation.java:82-109 | the request check: request and token present, user id non-empty and a UUID, the single message id accepted by `validMessageId` (even when unset), and every id of a set list accepted; `dismissAll` plays no part |
| MessageDismissal.Expected | src/main/java/tech/aroma/banana/service/operations/DismissMessageOperation.java:58-80 | the outcome of process: InvalidArgument on a failed check, the bulk delete's failure or an unset count with `dismissAll`, and otherwise the size of the target set; the lemmas below state its properties |
| MessageDismissal.Dismissal | src/main/java/tech/aroma/banana/service/operations/DismissMessageOperation.java:58-80 | the calls process makes: none on a failed check, one bulk delete with `dismissAll`, and otherwise each target id's delete once in some order |
| MessageDismissal.TargetIds | src/main/java/tech/aroma/banana/service/operations/DismissMessageOperation.java:116-130 | an id is a target exactly when it is the single message id (not null or empty) or an element of the id list when set; duplicates collapse |
| MessageDismissal.Deletes | src/main/java/tech/aroma/banana/service/operations/DismissMessageOperation.java:132-148 | a call is in the delete set exactly when it deletes one of the ids from the given user's inbox |
| MessageDismissal.DeletesCount | src/main/java/tech/aroma/banana/service/operations/DismissMessageOperation.java:132-136 | there are as many deletes as ids |
| MessageDismissal.TargetIdsAtMost | src/main/java/tech/aroma/banana/service/operations/DismissMessageOperation.java:116-130 | the number of target ids is at most one for the single id plus the length of the list |
| MessageDismissal.OverlappingIdsCountOnce | src/main/java/tech/aroma/banana/service/operations/DismissMessageOperation.java:73-76 | the single id "a" with the list ["a", "b", "c"] gives three targets, and a valid request answers a dismissed count of 3 |
| MessageDismissal.InvalidRequestMakesNoCall | src/main/java/tech/aroma/banana/service/operations/DismissMessageOperation.java:82-108 | the outcome is InvalidArgument exactly when the request fails the check, whether or not `dismissAll` is set; then no inbox call is made |
| MessageDismissal.DismissAllClearsInboxOnce | src/main/java/tech/aroma/banana/service/operations/DismissMessageOperation.java:67-79 | with `dismissAll`, exactly one `deleteAllMessagesForUser(userId)` and no single delete; a failure of it propagates; otherwise the response has no dismissed count |
| MessageDismissal.EachTargetDeletedOnce | src/main/java/tech/aroma/banana/service/operations/DismissMessageOperation.java:71-77 | without `dismissAll`, each target id is deleted exactly once for the caller and nothing else is called; the dismissed count is the number of targets and of calls, whichever deletes fail |
| MessageDismissal.DismissMessageOperation.Process | src/main/java/tech/aroma/banana/service/operations/DismissMessageOperation.java:58-80 | the outcome is `Expected`'s and the calls made satisfy `Dismissal` for the log before the call |
| MessageDismissal.DismissMessageOperation.ClearInboxFor | src/main/java/tech/aroma/banana/service/operations/DismissMessageOperation.java:111-114 | one bulk delete for the user, reporting whether it threw |
| MessageDismissal.DismissMessageOperation.GetAllMessageIdsFrom | src/main/java/tech/aroma/banana/service/operations/DismissMessageOperation.java:116-130 | the set built by the two additions is the target set |
| MessageDismissal.DismissMessageOperation.DeleteMessages | src/main/java/tech/aroma/banana/service/operations/DismissMessageOperation.java:132-136 | the log grows by exactly one delete per id, in some order, and keeps what came before |
| MessageDismissal.DismissMessageOperation.DeleteMessage | src/main/java/tech/aroma/banana/service/operations/DismissMessageOperation.java:138-148 | one `deleteMessageForUser(userId, msgId)` call; its failure is swallowed |
| Authentication.GuardedReply | src/test/java/tech/aroma/banana/service/AuthenticationLayerTest.java:120-160 | the reply of a guarded call: InvalidArgument for a null request, InvalidToken for a missing or rejected token, and otherwise the delegate's reply as it is |
| Authentication.VerifyCalls | src/test/java/tech/aroma/banana/service/AuthenticationLayerTest.java:132-133 | the token ids a guarded call sends to `verifyToken`: the request's own, once a token is present |
| Authentication.DelegateCalls | src/test/java/tech/aroma/banana/service/AuthenticationLayerTest.java:128-130 | the calls a guarded call makes on the delegate: the same request, once the token is verified |
| Authentication.ForwardsOnlyWhenAuthenticated | src/test/java/tech/aroma/banana/service/AuthenticationLayerTest.java:120-134 | the delegate is called exactly when the request has a token the verifier accepts; then once, with the very request, and the delegate's reply is the facade's reply unchanged |
| Authentication.UnauthenticatedThrows | src/test/java/tech/aroma/banana/service/AuthenticationLayerTest.java:136-160 | an unauthenticated call never reaches the delegate; it throws InvalidArgument for a missing request and InvalidToken for a missing or rejected token |
| Authentication.VerifiesTokenIdVerbatim | src/test/java/tech/aroma/banana/service/AuthenticationLayerTest.java:132-133 | the verifier is asked at most once, exactly when the request has a token, and with the request's token id verbatim |
| Authentication.AuthenticationLayer.Create | src/test/java/tech/aroma/banana/service/AuthenticationLayerTest.java:101-110 | construction fails with IllegalArgument exactly when the delegate or the authentication service is missing; otherwise it yields a new facade over the two |
| Authentication.AuthenticationLayer.GetApiVersion | src/test/java/tech/aroma/banana/service/AuthenticationLayerTest.java:112-118 | returns the delegate's version after one call on the delegate, and leaves the authentication service untouched |
| Authentication.AuthenticationLayer.Guarded | src/test/java/tech/aroma/banana/service/AuthenticationLayerTest.java:120-160 | the reply is `GuardedReply`'s; the verifier and the delegate receive exactly `VerifyCalls` and `DelegateCalls` |
| Authentication.AuthenticationLayer.ProvisionApplication | src/test/java/tech/aroma/banana/service/AuthenticationLayerTest.java:120-160 | the guarded call for provisionApplication |
| Authentication.AuthenticationLayer.RegenerateToken | src/test/java/tech/aroma/banana/service/AuthenticationLayerTest.java:162-202 | the guarded call for regenerateToken |
| Authentication.AuthenticationLayer.RegisterHealthCheck | src/test/java/tech/aroma/banana/service/AuthenticationLayerTest.java:205-239 | the guarded call for registerHealthCheck |
| Authentication.TestSetUp | src/test/java/tech/aroma/banana/service/AuthenticationLayerTest.java:94-99 | building the facade makes zero interactions with the delegate and with the authentication service |
| Authentication.TestConstructor | src/test/java/tech/aroma/banana/service/AuthenticationLayerTest.java:101-110 | a missing delegate and a missing authentication service are each an IllegalArgument |
| Authentication.TestGetApiVersion | src/test/java/tech/aroma/banana/service/AuthenticationLayerTest.java:112-118 | the caller gets the delegate's version; `getApiVersion` is called on the delegate once and the authentication service is not called |
| Authentication.TestSuccessfulCall | src/test/java/tech/aroma/banana/service/AuthenticationLayerTest.java:120-134 | with an accepted token, the result is the delegate's stubbed response; the delegate got the same request; the verifier got the request's token id |
| Authentication.TestBadRequest | src/test/java/tech/aroma/banana/service/AuthenticationLayerTest.java:136-146 | a missing request is InvalidArgument, a token-less request is InvalidToken, and the delegate has zero interactions |
| Authentication.TestBadToken | src/test/java/tech/aroma/banana/service/AuthenticationLayerTest.java:148-160 | when `verifyToken` throws for the request's token id, the call is InvalidToken and the delegate has zero interactions |

## Notes on the behaviour

- The thumbnail delete shares a `try` with its media delete (DeleteApplicationOperation.java:155-163). So when `deleteMedia` throws, that key's thumbnails are not tried.
- `validMessageId` is applied to the single message id even when that id is unset, and before the `dismissAll` branch. So an invalid id rejects a dismiss-all request too.
- The dismissed count is the size of the target set, not the number of deletes that succeeded.
- The facade's source is not part of this model, and its tests leave some behaviour open. The model takes these choices:
  - A token-less request is rejected before the authentication service is asked. The tests only check that the delegate is untouched.
  - A missing request makes no call at all.
  - Whatever the delegate returns or throws is passed through.

## Left out

- GetMyServicesOperation: it returns randomly generated placeholder data.
- Logging: it has no effect on behaviour, so a logged failure is simply swallowed.
- Parallel streams over the followers, the users to notify and the message ids are run one after another. `RemoveAllFollowersFor` and `SendNotificationThatAppWasDeletedBy` go in list order. `DeleteMessages` goes in an arbitrary order over the set. The lemmas claim only "each tried once, failures isolated" and no order among siblings.
- Concurrency between calls and inside a call (parallel streams) is not modelled.
- Process (in ApplicationDeletion): the event id (`one(uuids)`) and the timestamp (`now().toEpochMilli()`) are parameters, not generated.
- Repository, authentication-service and delegate implementations, the thrift transport and dependency injection are not modelled. Each is replaced by a recorder class with a failure oracle.
- The `notNull` checks on the injected repositories are left out: DismissMessageOperation.java:53 and DeleteApplicationOperation.java:80-81. The constructors of both operations are modelled, but they only store the collaborators.
- The internals of `RequestAssertions` (`validApplicationId`, `validUserId`, `validMessageId`, `isNullOrEmpty`) and of alchemy's `validUUID` are not modelled. They are uninterpreted functions in `Rules`.
- Failures other than thrift `TException`s are not modelled. Runtime exceptions such as a null application from `getById`, a null follower list or a null owner set are therefore out of scope. The oracle's answers are never null.
- A null entry inside the message id list is not modelled; list entries are strings.
- The application id of a DeleteApplicationRequest cannot be null in the model. `validApplicationId` sees only set ids, and a null id reaching `getById` is out of scope. The user id, the token id and the application name can be unset; an unset name reads "null" in the event message, as Java's string concatenation gives.
- The facade methods other than `getApiVersion`, `provisionApplication`, `regenerateToken` and `registerHealthCheck` are left out: their tests are empty stubs. Which of them are guarded is not stated.
- The authentication service and the delegate do not look at their logs: a verifier that rejects a token id only after earlier calls, or a delegate that answers a repeated request differently, is not modelled. The facade's tests stub both per call.
- Authentication.AuthenticationLayer.GetApiVersion: the API version is a `real`, not a Java `double`. The delegate never throws on it.
- The AuthenticationLayer source file is not part of this model. The facade is modelled from its unit tests.
