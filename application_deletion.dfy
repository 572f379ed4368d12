/**
 * Deleting an application (DeleteApplicationOperation).
 *
 * The operation validates the request, fetches the application, checks that the
 * caller owns it, runs four best-effort cleanup steps (media, followers, messages,
 * deletion events), and finally makes the one authoritative delete.
 *
 * The repositories are abstract collaborators: every call they receive is appended
 * to a call log, and an oracle decides, from the log so far and the call, whether
 * the call throws and what a lookup returns. The function Run states what the
 * operation does for any oracle; the class DeleteApplicationOperation performs it
 * step by step and is proved to agree with Run; the lemmas state the properties.
 */
module ApplicationDeletion {
  import opened Wrappers
  import opened Requests

  // ---------------------------------------------------------------------------
  // Data

  /** A user, reduced to what this operation looks at: its id. */
  datatype User = User(userId: string)

  datatype Application = Application(
    applicationId: string,
    name: Option<string>,
    owners: seq<string>,                 // the owner ids, in the order the owner set yields them
    applicationIconMediaId: Option<string>)

  datatype DeleteApplicationRequest = DeleteApplicationRequest(applicationId: string, token: Option<Token>)

  datatype EventType = ApplicationDeleted(message: string)

  datatype Event = Event(
    eventId: string,
    application: Application,
    applicationId: string,
    userIdOfActor: string,
    timestamp: int,
    eventType: EventType)

  /** One call on a repository. */
  datatype Call =
    | GetById(applicationId: string)                         // application repository
    | DeleteApplication(applicationId: string)               // application repository
    | DeleteMedia(mediaId: string)                           // media repository
    | DeleteAllThumbnails(mediaId: string)                   // media repository
    | GetApplicationFollowers(applicationId: string)         // follower repository
    | DeleteFollowing(userId: string, applicationId: string) // follower repository
    | DeleteAllMessages(applicationId: string)               // message repository
    | SaveEvent(event: Event, user: User)                    // activity repository

  /**
   * How the repositories behave: given the calls made so far, whether the next
   * call throws, and what a successful lookup returns.
   */
  datatype Oracle = Oracle(
    fails: (seq<Call>, Call) -> bool,
    application: (seq<Call>, string) -> Application,
    followers: (seq<Call>, string) -> seq<User>)

  /** The request checks whose definitions live outside this operation. */
  datatype Rules = Rules(
    validApplicationId: string -> bool,
    validUserId: Option<string> -> bool)

  /** How a call of process ends: the empty response, or the exception it throws. */
  datatype Outcome =
    | Deleted
    | InvalidArgument
    | Unauthorized
    | Failed(call: Call)     // the exception thrown by this repository call propagated

  /** What one call of process does: its outcome and the repository calls it made, in order. */
  datatype Trace = Trace(outcome: Outcome, calls: seq<Call>)

  // ---------------------------------------------------------------------------
  // Value construction and checks

  /** The request check: present, a valid application id, a token, a valid user id in it. */
  predicate Good(rules: Rules, request: Option<DeleteApplicationRequest>)
  {
    && request.Some?
    && rules.validApplicationId(request.value.applicationId)
    && request.value.token.Some?
    && rules.validUserId(request.value.token.value.userId)
  }

  /** The caller is one of the application's owners. */
  predicate OwnerOfApp(userId: Option<string>, app: Application)
  {
    userId.Some? && userId.value in app.owners
  }

  /** A user record carrying each id, in order. */
  function UsersWithIds(ids: seq<string>): (users: seq<User>)
    ensures |users| == |ids|
    ensures forall i | 0 <= i < |ids| :: users[i] == User(ids[i])
  {
    if ids == [] then [] else UsersWithIds(ids[..|ids| - 1]) + [User(ids[|ids| - 1])]
  }

  /** The owners of the application as users. */
  function GetOwners(app: Application): (owners: seq<User>)
    ensures |owners| == |app.owners|
    ensures forall i | 0 <= i < |owners| :: owners[i].userId == app.owners[i]
  {
    UsersWithIds(app.owners)
  }

  /** The event type telling that the application has been deleted. */
  function CreateAppDeleted(app: Application): EventType
  {
    ApplicationDeleted(AsText(app.name) + " has been deleted")
  }

  /** The deletion event; its id and timestamp are generated by the caller. */
  function CreateEventThatAppWasDeletedBy(userId: string, app: Application, eventId: string, timestamp: int): Event
  {
    Event(eventId, app, app.applicationId, userId, timestamp, CreateAppDeleted(app))
  }

  /** Everyone told about the deletion: the owners, then the followers, duplicates kept. */
  function UsersToNotify(app: Application, followers: seq<User>): seq<User>
  {
    GetOwners(app) + followers
  }

  // ---------------------------------------------------------------------------
  // The calls each step makes, when the log before the step is h

  /** deleteIcon: the media delete, and the thumbnail delete only if the media delete did not throw. */
  function IconCleanup(o: Oracle, h: seq<Call>, mediaId: string): seq<Call>
  {
    if o.fails(h, DeleteMedia(mediaId)) then [DeleteMedia(mediaId)]
    else [DeleteMedia(mediaId), DeleteAllThumbnails(mediaId)]
  }

  /** tryToDeleteMediaFor: the icon, when one is set, then the application's own id. */
  function MediaCleanup(o: Oracle, h: seq<Call>, app: Application): seq<Call>
  {
    var icon := if IsNullOrEmpty(app.applicationIconMediaId) then []
                else IconCleanup(o, h, app.applicationIconMediaId.value);
    icon + IconCleanup(o, h + icon, app.applicationId)
  }

  /** One deleteFollowing per follower. */
  function Unfollows(followers: seq<User>, applicationId: string): seq<Call>
  {
    if followers == [] then []
    else Unfollows(followers[..|followers| - 1], applicationId)
         + [DeleteFollowing(followers[|followers| - 1].userId, applicationId)]
  }

  /** The calls of the follower step and the follower list it hands on. */
  datatype Removal = Removal(calls: seq<Call>, followers: seq<User>)

  /** tryToRemoveAllFollowersFor: enumerate, then unfollow each; an empty list if enumerating throws. */
  function FollowerRemoval(o: Oracle, h: seq<Call>, app: Application): Removal
  {
    var enumerate := GetApplicationFollowers(app.applicationId);
    if o.fails(h, enumerate) then Removal([enumerate], [])
    else
      var followers := o.followers(h, app.applicationId);
      Removal([enumerate] + Unfollows(followers, app.applicationId), followers)
  }

  /** One saveEvent per user. */
  function Saves(event: Event, users: seq<User>): seq<Call>
  {
    if users == [] then []
    else Saves(event, users[..|users| - 1]) + [SaveEvent(event, users[|users| - 1])]
  }

  /** The follower step, run after the media step. */
  function RemovalAfterMedia(o: Oracle, h: seq<Call>, app: Application): Removal
  {
    FollowerRemoval(o, h + MediaCleanup(o, h, app), app)
  }

  /** The notification step: the deletion event saved for every owner and every follower handed on. */
  function Notification(o: Oracle, h: seq<Call>, app: Application, userId: string, eventId: string, timestamp: int)
    : seq<Call>
  {
    Saves(CreateEventThatAppWasDeletedBy(userId, app, eventId, timestamp),
          UsersToNotify(app, RemovalAfterMedia(o, h, app).followers))
  }

  /** The four best-effort steps, in order, after the lookup. */
  function Cascade(o: Oracle, h: seq<Call>, app: Application, userId: string, eventId: string, timestamp: int)
    : seq<Call>
  {
    MediaCleanup(o, h, app)
    + RemovalAfterMedia(o, h, app).calls
    + [DeleteAllMessages(app.applicationId)]
    + Notification(o, h, app, userId, eventId, timestamp)
  }

  /** What follows a successful ownership check: the cascade, then the application delete, which decides. */
  function Committed(o: Oracle, h: seq<Call>, app: Application, userId: string, eventId: string, timestamp: int)
    : Trace
  {
    var cascade := Cascade(o, h, app, userId, eventId, timestamp);
    var commit := DeleteApplication(app.applicationId);
    Trace(if o.fails(h + cascade, commit) then Failed(commit) else Deleted, cascade + [commit])
  }

  /** process, for a log h before the call. */
  function Run(rules: Rules, o: Oracle, h: seq<Call>, request: Option<DeleteApplicationRequest>,
               eventId: string, timestamp: int): Trace
  {
    if !Good(rules, request) then Trace(InvalidArgument, [])
    else
      var lookup := GetById(request.value.applicationId);
      if o.fails(h, lookup) then Trace(Failed(lookup), [lookup])
      else
        var app := o.application(h, request.value.applicationId);
        var userId := request.value.token.value.userId;
        if !OwnerOfApp(userId, app) then Trace(Unauthorized, [lookup])
        else
          var rest := Committed(o, h + [lookup], app, userId.value, eventId, timestamp);
          Trace(rest.outcome, [lookup] + rest.calls)
  }

  /** The request passes validation, the lookup succeeds and the caller owns the application. */
  predicate Authorized(rules: Rules, o: Oracle, h: seq<Call>, request: Option<DeleteApplicationRequest>)
  {
    && Good(rules, request)
    && !o.fails(h, GetById(request.value.applicationId))
    && OwnerOfApp(request.value.token.value.userId, o.application(h, request.value.applicationId))
  }

  /** The application the lookup returned. */
  function Fetched(o: Oracle, h: seq<Call>, request: Option<DeleteApplicationRequest>): Application
    requires request.Some?
  {
    o.application(h, request.value.applicationId)
  }

  // ---------------------------------------------------------------------------
  // Stages: the order in which the kinds of call are made

  function Stage(c: Call): nat
  {
    match c
    case GetById(_) => 0
    case DeleteMedia(_) => 1
    case DeleteAllThumbnails(_) => 1
    case GetApplicationFollowers(_) => 2
    case DeleteFollowing(_, _) => 2
    case DeleteAllMessages(_) => 3
    case SaveEvent(_, _) => 4
    case DeleteApplication(_) => 5
  }

  ghost predicate InStageOrder(t: seq<Call>)
  {
    forall i, j | 0 <= i < j < |t| :: Stage(t[i]) <= Stage(t[j])
  }

  ghost predicate AllAtStage(t: seq<Call>, k: nat)
  {
    forall c | c in t :: Stage(c) == k
  }

  ghost predicate StagesAtMost(t: seq<Call>, k: nat)
  {
    forall c | c in t :: Stage(c) <= k
  }

  /** Two ordered runs of calls, the first at stages up to k and the second from k on, join in order. */
  lemma AppendOrdered(a: seq<Call>, b: seq<Call>, k: nat)
    requires InStageOrder(a) && InStageOrder(b)
    requires forall c | c in a :: Stage(c) <= k
    requires forall c | c in b :: k <= Stage(c)
    ensures InStageOrder(a + b)
  {
    var t := a + b;
    forall i, j | 0 <= i < j < |t| ensures Stage(t[i]) <= Stage(t[j]) {
      if j < |a| {
        assert t[i] == a[i] && t[j] == a[j];
      } else if i < |a| {
        assert t[i] == a[i] && a[i] in a;
        assert t[j] == b[j - |a|] && b[j - |a|] in b;
      } else {
        assert t[i] == b[i - |a|] && t[j] == b[j - |a|];
      }
    }
  }

  /** Calls all at stage k may follow ordered calls at stages up to k. */
  lemma AppendStage(a: seq<Call>, b: seq<Call>, k: nat)
    requires InStageOrder(a) && StagesAtMost(a, k) && AllAtStage(b, k)
    ensures InStageOrder(a + b) && StagesAtMost(a + b, k)
  {
    AppendOrdered(a, b, k);
  }

  // ---------------------------------------------------------------------------
  // Media

  /**
   * Where a thumbnail delete appears, it follows the media delete of the same key,
   * which did not throw; where a media delete did not throw, the thumbnail delete of
   * the same key follows it.
   */
  ghost predicate ThumbnailsPaired(o: Oracle, h: seq<Call>, t: seq<Call>)
  {
    && (forall i | 0 <= i < |t| && t[i].DeleteAllThumbnails? ::
          0 < i && t[i - 1] == DeleteMedia(t[i].mediaId) && !o.fails(h + t[..i - 1], t[i - 1]))
    && (forall i | 0 <= i < |t| && t[i].DeleteMedia? && !o.fails(h + t[..i], t[i]) ::
          i + 1 < |t| && t[i + 1] == DeleteAllThumbnails(t[i].mediaId))
  }

  lemma IconCleanupPaired(o: Oracle, h: seq<Call>, mediaId: string)
    ensures ThumbnailsPaired(o, h, IconCleanup(o, h, mediaId))
    ensures AllAtStage(IconCleanup(o, h, mediaId), 1)
  {
    var t := IconCleanup(o, h, mediaId);
    assert h + t[..0] == h;
  }

  lemma PairedAppend(o: Oracle, h: seq<Call>, a: seq<Call>, b: seq<Call>)
    requires ThumbnailsPaired(o, h, a) && ThumbnailsPaired(o, h + a, b)
    ensures ThumbnailsPaired(o, h, a + b)
  {
    var t := a + b;
    forall i | 0 <= i < |t| && t[i].DeleteAllThumbnails?
      ensures 0 < i && t[i - 1] == DeleteMedia(t[i].mediaId) && !o.fails(h + t[..i - 1], t[i - 1])
    {
      if i < |a| {
        assert t[i] == a[i];
        assert t[i - 1] == a[i - 1] && t[..i - 1] == a[..i - 1];
      } else {
        var j := i - |a|;
        assert t[i] == b[j];
        assert t[i - 1] == b[j - 1];
        assert t[..i - 1] == a + b[..j - 1];
        assert h + t[..i - 1] == (h + a) + b[..j - 1];
      }
    }
    forall i | 0 <= i < |t| && t[i].DeleteMedia? && !o.fails(h + t[..i], t[i])
      ensures i + 1 < |t| && t[i + 1] == DeleteAllThumbnails(t[i].mediaId)
    {
      if i < |a| {
        assert t[i] == a[i] && t[..i] == a[..i];
        assert t[i + 1] == a[i + 1];
      } else {
        var j := i - |a|;
        assert t[i] == b[j];
        assert t[..i] == a + b[..j];
        assert h + t[..i] == (h + a) + b[..j];
        assert t[i + 1] == b[j + 1];
      }
    }
  }

  /** tryToDeleteMediaFor tries the media delete on the application id always and on the icon when it is set, and nothing else. */
  lemma MediaCleanupKeys(o: Oracle, h: seq<Call>, app: Application)
    ensures var t := MediaCleanup(o, h, app);
      && AllAtStage(t, 1)
      && (forall k :: DeleteMedia(k) in t <==>
            (k == app.applicationId
             || (!IsNullOrEmpty(app.applicationIconMediaId) && k == app.applicationIconMediaId.value)))
  {
  }

  /**
   * In tryToDeleteMediaFor each key's thumbnail delete is tried exactly when its
   * own media delete did not throw, and directly after it; a failure on the icon
   * does not keep the application id's pair from being tried.
   */
  lemma MediaCleanupPairsThumbnails(o: Oracle, h: seq<Call>, app: Application)
    ensures ThumbnailsPaired(o, h, MediaCleanup(o, h, app))
  {
    var icon := if IsNullOrEmpty(app.applicationIconMediaId) then []
                else IconCleanup(o, h, app.applicationIconMediaId.value);
    if !IsNullOrEmpty(app.applicationIconMediaId) {
      IconCleanupPaired(o, h, app.applicationIconMediaId.value);
    } else {
      assert h + icon == h;
    }
    IconCleanupPaired(o, h + icon, app.applicationId);
    PairedAppend(o, h, icon, IconCleanup(o, h + icon, app.applicationId));
  }

  // ---------------------------------------------------------------------------
  // Followers

  lemma {:induction false} UnfollowsAreDeletes(followers: seq<User>, applicationId: string)
    ensures |Unfollows(followers, applicationId)| == |followers|
    ensures forall c | c in Unfollows(followers, applicationId) ::
              c.DeleteFollowing? && c.applicationId == applicationId
  {
    if followers != [] {
      UnfollowsAreDeletes(followers[..|followers| - 1], applicationId);
    }
  }

  lemma {:induction false} UnfollowsCount(followers: seq<User>, applicationId: string)
    ensures forall x :: multiset(Unfollows(followers, applicationId))[DeleteFollowing(x, applicationId)]
                        == multiset(followers)[User(x)]
  {
    if followers != [] {
      var init, last := followers[..|followers| - 1], followers[|followers| - 1];
      UnfollowsCount(init, applicationId);
      assert followers == init + [last];
    }
  }

  /** The follower step makes follower calls only, the enumeration first. */
  lemma FollowerRemovalStage(o: Oracle, h: seq<Call>, app: Application)
    ensures var r := FollowerRemoval(o, h, app);
      && AllAtStage(r.calls, 2)
      && |r.calls| >= 1
      && r.calls[0] == GetApplicationFollowers(app.applicationId)
  {
    if !o.fails(h, GetApplicationFollowers(app.applicationId)) {
      UnfollowsAreDeletes(o.followers(h, app.applicationId), app.applicationId);
    }
  }

  /**
   * tryToRemoveAllFollowersFor enumerates the followers first. If that throws,
   * nothing else is tried and the list handed on is empty. Otherwise the list
   * handed on is the one enumerated, and deleteFollowing is tried once for each
   * of its entries (with that user's id and this application), whichever of
   * those deletes throw.
   */
  lemma FollowerRemovalAttemptsEveryFollower(o: Oracle, h: seq<Call>, app: Application)
    ensures var id := app.applicationId;
      var enumerate := GetApplicationFollowers(id);
      var r := FollowerRemoval(o, h, app);
      && |r.calls| == 1 + |r.followers|
      && r.calls[0] == enumerate
      && r.followers == (if o.fails(h, enumerate) then [] else o.followers(h, id))
      && (forall c | c in r.calls[1..] :: c.DeleteFollowing? && c.applicationId == id)
      && (forall x :: multiset(r.calls[1..])[DeleteFollowing(x, id)] == multiset(r.followers)[User(x)])
  {
    var id := app.applicationId;
    var r := FollowerRemoval(o, h, app);
    if !o.fails(h, GetApplicationFollowers(id)) {
      UnfollowsAreDeletes(o.followers(h, id), id);
      UnfollowsCount(o.followers(h, id), id);
      assert r.calls[1..] == Unfollows(o.followers(h, id), id);
    }
  }

  // ---------------------------------------------------------------------------
  // Notification

  lemma {:induction false} SavesAreOfEvent(event: Event, users: seq<User>)
    ensures |Saves(event, users)| == |users|
    ensures forall c | c in Saves(event, users) :: c.SaveEvent? && c.event == event
  {
    if users != [] {
      SavesAreOfEvent(event, users[..|users| - 1]);
    }
  }

  lemma {:induction false} SavesCount(event: Event, users: seq<User>)
    ensures forall u :: multiset(Saves(event, users))[SaveEvent(event, u)] == multiset(users)[u]
  {
    if users != [] {
      var init, last := users[..|users| - 1], users[|users| - 1];
      SavesCount(event, init);
      assert users == init + [last];
    }
  }

  lemma {:induction false} UsersWithIdsCount(ids: seq<string>)
    ensures |UsersWithIds(ids)| == |ids|
    ensures forall x :: multiset(UsersWithIds(ids))[User(x)] == multiset(ids)[x]
  {
    if ids != [] {
      var init, last := ids[..|ids| - 1], ids[|ids| - 1];
      UsersWithIdsCount(init);
      assert ids == init + [last];
    }
  }

  /**
   * The notification step saves the event once for every entry of the owners
   * followed by the followers: a user who is both is notified twice.
   */
  lemma NotificationReachesOwnersAndFollowers(event: Event, app: Application, followers: seq<User>)
    ensures var s := Saves(event, UsersToNotify(app, followers));
      && |s| == |app.owners| + |followers|
      && (forall c | c in s :: c.SaveEvent? && c.event == event)
      && (forall x :: multiset(s)[SaveEvent(event, User(x))]
                      == multiset(app.owners)[x] + multiset(followers)[User(x)])
  {
    SavesAreOfEvent(event, UsersToNotify(app, followers));
    SavesCount(event, UsersToNotify(app, followers));
    UsersWithIdsCount(app.owners);
  }

  // ---------------------------------------------------------------------------
  // The whole operation

  /** The cascade is its four steps, each run on the log the previous ones left. */
  lemma CascadeSteps(o: Oracle, h: seq<Call>, app: Application, userId: string, eventId: string, timestamp: int)
    ensures var media := MediaCleanup(o, h, app);
      var removal := FollowerRemoval(o, h + media, app);
      var messages := [DeleteAllMessages(app.applicationId)];
      Cascade(o, h, app, userId, eventId, timestamp)
      == media + removal.calls + messages
         + Saves(CreateEventThatAppWasDeletedBy(userId, app, eventId, timestamp), UsersToNotify(app, removal.followers))
  {
  }

  /** An authorized run is the lookup followed by what Committed makes of the application found. */
  lemma AuthorizedRun(rules: Rules, o: Oracle, h: seq<Call>, request: Option<DeleteApplicationRequest>,
                      eventId: string, timestamp: int)
    requires Authorized(rules, o, h, request)
    ensures var lookup := GetById(request.value.applicationId);
      var rest := Committed(o, h + [lookup], Fetched(o, h, request), request.value.token.value.userId.value,
                            eventId, timestamp);
      Run(rules, o, h, request, eventId, timestamp) == Trace(rest.outcome, [lookup] + rest.calls)
  {
  }

  /** A request that fails validation is rejected as an invalid argument, before any repository call. */
  lemma InvalidRequestMakesNoCall(rules: Rules, o: Oracle, h: seq<Call>, request: Option<DeleteApplicationRequest>,
                                  eventId: string, timestamp: int)
    ensures var run := Run(rules, o, h, request, eventId, timestamp);
      && (run.outcome == InvalidArgument <==> !Good(rules, request))
      && (!Good(rules, request) ==> run.calls == [])
  {
  }

  /** A lookup that throws ends the operation with that failure, before any deletion is tried. */
  lemma LookupFailurePropagates(rules: Rules, o: Oracle, h: seq<Call>, request: Option<DeleteApplicationRequest>,
                                eventId: string, timestamp: int)
    requires Good(rules, request) && o.fails(h, GetById(request.value.applicationId))
    ensures var run := Run(rules, o, h, request, eventId, timestamp);
      run.outcome == Failed(GetById(request.value.applicationId))
      && run.calls == [GetById(request.value.applicationId)]
  {
  }

  /**
   * The operation is unauthorized exactly when a valid request's application was
   * found but the caller is not among its owners; then the lookup was the only call.
   */
  lemma NonOwnerIsUnauthorized(rules: Rules, o: Oracle, h: seq<Call>, request: Option<DeleteApplicationRequest>,
                               eventId: string, timestamp: int)
    ensures var run := Run(rules, o, h, request, eventId, timestamp);
      && (run.outcome == Unauthorized <==>
            (Good(rules, request) && !o.fails(h, GetById(request.value.applicationId))
             && !OwnerOfApp(request.value.token.value.userId, Fetched(o, h, request))))
      && (run.outcome == Unauthorized ==> run.calls == [GetById(request.value.applicationId)])
  {
  }

  /** Four runs of calls, each at its own stage from 1 to 4, are in stage order when joined. */
  lemma FourStagesOrdered(a: seq<Call>, b: seq<Call>, c: seq<Call>, d: seq<Call>)
    requires AllAtStage(a, 1) && AllAtStage(b, 2) && AllAtStage(c, 3) && AllAtStage(d, 4)
    ensures InStageOrder(a + b + c + d)
    ensures forall x | x in a + b + c + d :: 1 <= Stage(x) <= 4
  {
    assert [] + a == a;
    AppendStage([], a, 1);
    AppendStage(a, b, 2);
    AppendStage(a + b, c, 3);
    AppendStage(a + b + c, d, 4);
    forall x | x in a + b + c + d ensures 1 <= Stage(x) <= 4 {
      assert x in a || x in b || x in c || x in d;
    }
  }

  /** The cascade makes its calls in stage order, all after the lookup's stage and before the commit's. */
  lemma CascadeOrdered(o: Oracle, h: seq<Call>, app: Application, userId: string, eventId: string, timestamp: int)
    ensures var cascade := Cascade(o, h, app, userId, eventId, timestamp);
      && InStageOrder(cascade)
      && (forall c | c in cascade :: 1 <= Stage(c) <= 4)
  {
    var media := MediaCleanup(o, h, app);
    var removal := RemovalAfterMedia(o, h, app);
    var saves := Notification(o, h, app, userId, eventId, timestamp);
    MediaCleanupKeys(o, h, app);
    FollowerRemovalStage(o, h + media, app);
    SavesAreOfEvent(CreateEventThatAppWasDeletedBy(userId, app, eventId, timestamp),
                    UsersToNotify(app, removal.followers));
    FourStagesOrdered(media, removal.calls, [DeleteAllMessages(app.applicationId)], saves);
  }

  /** What the cascade tries, whatever the oracle says, for any log h before it. */
  lemma CascadeContents(o: Oracle, h: seq<Call>, app: Application, userId: string, eventId: string, timestamp: int)
    ensures var cascade := Cascade(o, h, app, userId, eventId, timestamp);
      && (forall k :: DeleteMedia(k) in cascade <==> DeleteMedia(k) in MediaCleanup(o, h, app))
      && GetApplicationFollowers(app.applicationId) in cascade
      && DeleteAllMessages(app.applicationId) in cascade
      && (forall c | c in cascade && c.SaveEvent? ::
            c.event == CreateEventThatAppWasDeletedBy(userId, app, eventId, timestamp))
  {
    var media := MediaCleanup(o, h, app);
    var removal := RemovalAfterMedia(o, h, app);
    var event := CreateEventThatAppWasDeletedBy(userId, app, eventId, timestamp);
    var saves := Notification(o, h, app, userId, eventId, timestamp);
    var cascade := Cascade(o, h, app, userId, eventId, timestamp);
    MediaCleanupKeys(o, h, app);
    FollowerRemovalStage(o, h + media, app);
    SavesAreOfEvent(event, UsersToNotify(app, removal.followers));
    assert removal.calls[0] in removal.calls;
    forall k ensures DeleteMedia(k) in cascade <==> DeleteMedia(k) in media {
      if DeleteMedia(k) in removal.calls { assert false; }
      if DeleteMedia(k) in saves { assert false; }
    }
    forall c | c in cascade && c.SaveEvent? ensures c.event == event {
      assert Stage(c) == 4;
      assert c in saves;
    }
  }

  /**
   * Every run makes its calls in stage order: the lookup, the media deletes, the
   * follower enumeration and removals, the message delete, the event saves, and
   * the application delete last.
   */
  lemma CallsFollowCascadeOrder(rules: Rules, o: Oracle, h: seq<Call>, request: Option<DeleteApplicationRequest>,
                                eventId: string, timestamp: int)
    ensures InStageOrder(Run(rules, o, h, request, eventId, timestamp).calls)
  {
    if Authorized(rules, o, h, request) {
      var app := Fetched(o, h, request);
      var lookup := GetById(request.value.applicationId);
      var cascade := Cascade(o, h + [lookup], app, request.value.token.value.userId.value, eventId, timestamp);
      var commit := DeleteApplication(app.applicationId);
      CascadeOrdered(o, h + [lookup], app, request.value.token.value.userId.value, eventId, timestamp);
      AppendOrdered([lookup], cascade, 0);
      AppendOrdered([lookup] + cascade, [commit], 4);
      assert Run(rules, o, h, request, eventId, timestamp).calls == [lookup] + cascade + [commit];
    }
  }

  /**
   * On the authorized path the application delete is the last call and the only
   * one of its kind; the operation succeeds exactly when that delete does not throw,
   * and otherwise fails with that delete's failure, whatever the cleanup steps did.
   */
  lemma CommitIsLastAndDecidesOutcome(rules: Rules, o: Oracle, h: seq<Call>, request: Option<DeleteApplicationRequest>,
                                      eventId: string, timestamp: int)
    requires Authorized(rules, o, h, request)
    ensures var run := Run(rules, o, h, request, eventId, timestamp);
      var commit := DeleteApplication(Fetched(o, h, request).applicationId);
      var n := |run.calls|;
      && n >= 2
      && run.calls[n - 1] == commit
      && (forall i | 0 <= i < n - 1 :: !run.calls[i].DeleteApplication?)
      && (run.outcome == Deleted <==> !o.fails(h + run.calls[..n - 1], commit))
      && (run.outcome != Deleted ==> run.outcome == Failed(commit))
  {
    var run := Run(rules, o, h, request, eventId, timestamp);
    var n := |run.calls|;
    var app := Fetched(o, h, request);
    var lookup := GetById(request.value.applicationId);
    var cascade := Cascade(o, h + [lookup], app, request.value.token.value.userId.value, eventId, timestamp);
    CascadeOrdered(o, h + [lookup], app, request.value.token.value.userId.value, eventId, timestamp);
    assert run.calls == [lookup] + cascade + [DeleteApplication(app.applicationId)];
    assert run.calls[..n - 1] == [lookup] + cascade;
    assert h + run.calls[..n - 1] == h + [lookup] + cascade;
    forall i | 0 <= i < n - 1 ensures !run.calls[i].DeleteApplication? {
      if 0 < i {
        assert run.calls[i] == cascade[i - 1] && cascade[i - 1] in cascade;
      }
    }
  }

  /**
   * On the authorized path, whatever the oracle: the media delete is tried on the
   * application id and on the icon when set (and on no other key), the followers
   * are enumerated, and the application's messages are deleted, before the commit.
   */
  lemma CleanupIsAttempted(rules: Rules, o: Oracle, h: seq<Call>, request: Option<DeleteApplicationRequest>,
                           eventId: string, timestamp: int)
    requires Authorized(rules, o, h, request)
    ensures var run := Run(rules, o, h, request, eventId, timestamp);
      var app := Fetched(o, h, request);
      && (forall k :: DeleteMedia(k) in run.calls <==>
            (k == app.applicationId
             || (!IsNullOrEmpty(app.applicationIconMediaId) && k == app.applicationIconMediaId.value)))
      && GetApplicationFollowers(app.applicationId) in run.calls
      && DeleteAllMessages(app.applicationId) in run.calls
  {
    var app := Fetched(o, h, request);
    var lookup := GetById(request.value.applicationId);
    var cascade := Cascade(o, h + [lookup], app, request.value.token.value.userId.value, eventId, timestamp);
    CascadeContents(o, h + [lookup], app, request.value.token.value.userId.value, eventId, timestamp);
    MediaCleanupKeys(o, h + [lookup], app);
    assert Run(rules, o, h, request, eventId, timestamp).calls == [lookup] + cascade + [DeleteApplication(app.applicationId)];
  }

  /**
   * Every event saved on the authorized path names the deleted application, has the
   * caller as its actor, carries the generated id and timestamp, and says
   * "<name> has been deleted", with "null" for an unset name.
   */
  lemma EventDescribesDeletion(rules: Rules, o: Oracle, h: seq<Call>, request: Option<DeleteApplicationRequest>,
                               eventId: string, timestamp: int)
    requires Authorized(rules, o, h, request)
    ensures var run := Run(rules, o, h, request, eventId, timestamp);
      var app := Fetched(o, h, request);
      forall c | c in run.calls && c.SaveEvent? ::
        && c.event.applicationId == app.applicationId
        && c.event.application == app
        && c.event.userIdOfActor == request.value.token.value.userId.value
        && c.event.eventId == eventId
        && c.event.timestamp == timestamp
        && c.event.eventType == ApplicationDeleted(AsText(app.name) + " has been deleted")
  {
    var app := Fetched(o, h, request);
    var lookup := GetById(request.value.applicationId);
    var cascade := Cascade(o, h + [lookup], app, request.value.token.value.userId.value, eventId, timestamp);
    CascadeContents(o, h + [lookup], app, request.value.token.value.userId.value, eventId, timestamp);
    assert Run(rules, o, h, request, eventId, timestamp).calls == [lookup] + cascade + [DeleteApplication(app.applicationId)];
  }

  // ---------------------------------------------------------------------------
  // The collaborators and the operation

  /** The repositories the operation holds, as one recorder of the calls they receive. */
  class Repositories {
    const oracle: Oracle
    var log: seq<Call>

    constructor (oracle: Oracle)
      ensures this.oracle == oracle && log == []
    {
      this.oracle := oracle;
      log := [];
    }

    /** Records the call; true when it does not throw. */
    method Record(c: Call) returns (ok: bool)
      modifies this
      ensures log == old(log) + [c]
      ensures ok == !oracle.fails(old(log), c)
    {
      ok := !oracle.fails(log, c);
      log := log + [c];
    }

    /** ApplicationRepository.getById: the application, or None when the call throws. */
    method GetById(applicationId: string) returns (app: Option<Application>)
      modifies this
      ensures log == old(log) + [Call.GetById(applicationId)]
      ensures app == if oracle.fails(old(log), Call.GetById(applicationId)) then None
                     else Some(oracle.application(old(log), applicationId))
    {
      var found := oracle.application(log, applicationId);
      var ok := Record(Call.GetById(applicationId));
      app := if ok then Some(found) else None;
    }

    /** FollowerRepository.getApplicationFollowers: the followers, or None when the call throws. */
    method GetApplicationFollowers(applicationId: string) returns (followers: Option<seq<User>>)
      modifies this
      ensures log == old(log) + [Call.GetApplicationFollowers(applicationId)]
      ensures followers == if oracle.fails(old(log), Call.GetApplicationFollowers(applicationId)) then None
                           else Some(oracle.followers(old(log), applicationId))
    {
      var found := oracle.followers(log, applicationId);
      var ok := Record(Call.GetApplicationFollowers(applicationId));
      followers := if ok then Some(found) else None;
    }
  }

  class DeleteApplicationOperation {
    const repositories: Repositories
    const rules: Rules

    constructor (repositories: Repositories, rules: Rules)
      ensures this.repositories == repositories && this.rules == rules
    {
      this.repositories := repositories;
      this.rules := rules;
    }

    /**
     * process: the outcome and the calls made are those of Run; the event id and
     * timestamp the source generates are parameters.
     */
    method Process(request: Option<DeleteApplicationRequest>, eventId: string, timestamp: int)
      returns (outcome: Outcome)
      modifies repositories
      ensures var run := Run(rules, repositories.oracle, old(repositories.log), request, eventId, timestamp);
        outcome == run.outcome && repositories.log == old(repositories.log) + run.calls
    {
      if !Good(rules, request) {
        return InvalidArgument;
      }
      ghost var h := repositories.log;
      var fetched := repositories.GetById(request.value.applicationId);
      if fetched.None? {
        return Failed(Call.GetById(request.value.applicationId));
      }
      var app := fetched.value;
      var userId := request.value.token.value.userId;
      if !OwnerOfApp(userId, app) {
        return Unauthorized;
      }
      outcome := DeleteOwnedApplication(app, userId.value, eventId, timestamp);
      AuthorizedRun(rules, repositories.oracle, h, request, eventId, timestamp);
    }

    /**
     * The part of process after the ownership check: the four best-effort steps, then
     * the application delete, whose exception is the only one that escapes.
     */
    method DeleteOwnedApplication(app: Application, userId: string, eventId: string, timestamp: int)
      returns (outcome: Outcome)
      modifies repositories
      ensures var rest := Committed(repositories.oracle, old(repositories.log), app, userId, eventId, timestamp);
        outcome == rest.outcome && repositories.log == old(repositories.log) + rest.calls
    {
      ghost var h := repositories.log;
      TryToDeleteMediaFor(app);
      var followers := TryToRemoveAllFollowersFor(app);
      TryToDeleteAllMessagesFor(app);
      SendNotificationThatAppWasDeletedBy(userId, app, followers, eventId, timestamp);
      CascadeSteps(repositories.oracle, h, app, userId, eventId, timestamp);
      ghost var cascade := Cascade(repositories.oracle, h, app, userId, eventId, timestamp);
      assert repositories.log == h + cascade;
      var deleted := repositories.Record(Call.DeleteApplication(app.applicationId));
      if !deleted {
        return Failed(Call.DeleteApplication(app.applicationId));
      }
      return Deleted;
    }

    method TryToDeleteMediaFor(app: Application)
      modifies repositories
      ensures repositories.log == old(repositories.log) + MediaCleanup(repositories.oracle, old(repositories.log), app)
    {
      ghost var h := repositories.log;
      var iconLink := app.applicationIconMediaId;
      if !IsNullOrEmpty(iconLink) {
        DeleteIcon(app, iconLink.value);
      }
      ghost var icon := if IsNullOrEmpty(iconLink) then [] else IconCleanup(repositories.oracle, h, iconLink.value);
      assert repositories.log == h + icon;
      DeleteIcon(app, app.applicationId);
      assert repositories.log == h + icon + IconCleanup(repositories.oracle, h + icon, app.applicationId);
    }

    /** The thumbnail delete is in the same try as the media delete, so it is skipped when that throws. */
    method DeleteIcon(app: Application, iconLink: string)
      modifies repositories
      ensures repositories.log == old(repositories.log) + IconCleanup(repositories.oracle, old(repositories.log), iconLink)
    {
      var deleted := repositories.Record(DeleteMedia(iconLink));
      if deleted {
        var thumbnailsDeleted := repositories.Record(DeleteAllThumbnails(iconLink));
      }
    }

    method TryToRemoveAllFollowersFor(app: Application) returns (followers: seq<User>)
      modifies repositories
      ensures var removal := FollowerRemoval(repositories.oracle, old(repositories.log), app);
        repositories.log == old(repositories.log) + removal.calls && followers == removal.followers
    {
      var removed := RemoveAllFollowersFor(app);
      followers := if removed.Some? then removed.value else [];
    }

    /** None stands for the exception of getApplicationFollowers, the only call here that can escape. */
    method RemoveAllFollowersFor(app: Application) returns (followers: Option<seq<User>>)
      modifies repositories
      ensures var enumerate := Call.GetApplicationFollowers(app.applicationId);
        var h := old(repositories.log);
        if repositories.oracle.fails(h, enumerate) then
          followers == None && repositories.log == h + [enumerate]
        else
          var found := repositories.oracle.followers(h, app.applicationId);
          followers == Some(found) && repositories.log == h + [enumerate] + Unfollows(found, app.applicationId)
    {
      var appId := app.applicationId;
      var enumerated := repositories.GetApplicationFollowers(appId);
      if enumerated.None? {
        return None;
      }
      var found := enumerated.value;
      ghost var h1 := repositories.log;
      var i := 0;
      while i < |found|
        invariant 0 <= i <= |found|
        invariant repositories.log == h1 + Unfollows(found[..i], appId)
      {
        assert found[..i + 1][..i] == found[..i];
        DeleteFollowing(found[i].userId, appId);
        i := i + 1;
      }
      assert found[..|found|] == found;
      return Some(found);
    }

    method DeleteFollowing(userId: string, applicationId: string)
      modifies repositories
      ensures repositories.log == old(repositories.log) + [Call.DeleteFollowing(userId, applicationId)]
    {
      var ok := repositories.Record(Call.DeleteFollowing(userId, applicationId));
    }

    method TryToDeleteAllMessagesFor(app: Application)
      modifies repositories
      ensures repositories.log == old(repositories.log) + [DeleteAllMessages(app.applicationId)]
    {
      var ok := repositories.Record(DeleteAllMessages(app.applicationId));
    }

    /** sendNotificationThatAppWasDeletedBy, with the catch-all of its try-wrapper having nothing left to catch. */
    method SendNotificationThatAppWasDeletedBy(userId: string, app: Application, followers: seq<User>,
                                               eventId: string, timestamp: int)
      modifies repositories
      ensures repositories.log == old(repositories.log)
        + Saves(CreateEventThatAppWasDeletedBy(userId, app, eventId, timestamp), UsersToNotify(app, followers))
    {
      var event := CreateEventThatAppWasDeletedBy(userId, app, eventId, timestamp);
      var usersToNotify := GetOwners(app);
      usersToNotify := usersToNotify + followers;
      ghost var h := repositories.log;
      var i := 0;
      while i < |usersToNotify|
        invariant 0 <= i <= |usersToNotify|
        invariant repositories.log == h + Saves(event, usersToNotify[..i])
      {
        assert usersToNotify[..i + 1][..i] == usersToNotify[..i];
        TryToSave(event, usersToNotify[i]);
        i := i + 1;
      }
      assert usersToNotify[..|usersToNotify|] == usersToNotify;
    }

    method TryToSave(event: Event, user: User)
      modifies repositories
      ensures repositories.log == old(repositories.log) + [SaveEvent(event, user)]
    {
      var ok := repositories.Record(SaveEvent(event, user));
    }
  }
}
