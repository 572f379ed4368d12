/**
 * Dismissing messages from a user's inbox (DismissMessageOperation).
 *
 * The operation validates the request, then either clears the whole inbox with one
 * bulk delete, or collects the ids named in the request into a set and tries one
 * delete per id, reporting how many ids the set holds.
 *
 * The inbox repository is an abstract collaborator: every call it receives is
 * appended to a call log, and an oracle decides, from the log so far and the call,
 * whether the call throws. The function Expected states the outcome, the predicate
 * Dismissal the calls made; the class DismissMessageOperation performs the operation
 * and is proved to agree with both; the lemmas state the properties.
 */
module MessageDismissal {
  import opened Wrappers
  import opened Requests

  // ---------------------------------------------------------------------------
  // Data

  datatype DismissMessageRequest = DismissMessageRequest(
    token: Option<Token>,
    messageId: Option<string>,
    messageIds: Option<seq<string>>,   // None when the list is not set
    dismissAll: bool)

  /** The response; the dismissed count is left unset when the whole inbox is cleared. */
  datatype DismissMessageResponse = DismissMessageResponse(messagesDismissed: Option<int>)

  /** One call on the inbox repository. */
  datatype InboxCall =
    | DeleteMessageForUser(userId: string, messageId: string)
    | DeleteAllMessagesForUser(userId: string)

  /**
   * The checks whose definitions live outside this operation: the UUID check, the
   * message id check (which also sees an unset id), and whether a set message id
   * counts as empty.
   */
  datatype Rules = Rules(
    validUUID: string -> bool,
    validMessageId: Option<string> -> bool,
    emptyMessageId: string -> bool)

  /** How a call of process ends: a response, or the exception it throws. */
  datatype Outcome =
    | Dismissed(response: DismissMessageResponse)
    | InvalidArgument
    | Failed(call: InboxCall)     // the exception thrown by this inbox call propagated

  // ---------------------------------------------------------------------------
  // Checks and the target set

  /**
   * The request check: present, with a token whose user id is a non-empty UUID, a
   * message id the message id check accepts, and, when the id list is set, every id
   * of it accepted as well. It does not depend on dismissAll.
   */
  predicate Good(rules: Rules, request: Option<DismissMessageRequest>)
  {
    && request.Some?
    && request.value.token.Some?
    && NonEmptyString(request.value.token.value.userId)
    && rules.validUUID(request.value.token.value.userId.value)
    && rules.validMessageId(request.value.messageId)
    && (request.value.messageIds.Some? ==>
          forall id | id in request.value.messageIds.value :: rules.validMessageId(Some(id)))
  }

  /** The isNullOrEmpty check on the single message id: an unset id always counts as null or empty. */
  predicate NullOrEmpty(rules: Rules, messageId: Option<string>)
  {
    messageId.None? || rules.emptyMessageId(messageId.value)
  }

  /** The caller's user id, once the request check has passed. */
  function Caller(request: DismissMessageRequest): string
    requires request.token.Some? && request.token.value.userId.Some?
  {
    request.token.value.userId.value
  }

  /**
   * The ids to dismiss: the single id unless it is null or empty, and every id of the
   * list when it is set; an id named twice is in the set once.
   */
  function TargetIds(rules: Rules, request: DismissMessageRequest): (ids: set<string>)
    ensures forall id :: id in ids <==>
      ((!NullOrEmpty(rules, request.messageId) && id == request.messageId.value)
       || (request.messageIds.Some? && id in request.messageIds.value))
  {
    (if NullOrEmpty(rules, request.messageId) then {} else {request.messageId.value})
    + (if request.messageIds.None? then {} else set id | id in request.messageIds.value)
  }

  /** The deletes for the given ids, each on the given user's inbox. */
  function Deletes(userId: string, ids: set<string>): (calls: set<InboxCall>)
    ensures forall c :: c in calls <==> c.DeleteMessageForUser? && c.userId == userId && c.messageId in ids
  {
    set id | id in ids :: DeleteMessageForUser(userId, id)
  }

  // ---------------------------------------------------------------------------
  // What process does, for a log h before the call

  function Expected(rules: Rules, fails: (seq<InboxCall>, InboxCall) -> bool, h: seq<InboxCall>,
                    request: Option<DismissMessageRequest>): Outcome
  {
    if !Good(rules, request) then InvalidArgument
    else if request.value.dismissAll then
      var clear := DeleteAllMessagesForUser(Caller(request.value));
      if fails(h, clear) then Failed(clear) else Dismissed(DismissMessageResponse(None))
    else Dismissed(DismissMessageResponse(Some(|TargetIds(rules, request.value)|)))
  }

  /** The log after h holds the given calls, each exactly once, in some order. */
  ghost predicate AttemptsEachOnce(h: seq<InboxCall>, log: seq<InboxCall>, calls: set<InboxCall>)
  {
    && |h| <= |log|
    && log[..|h|] == h
    && multiset(log[|h|..]) == multiset(calls)
  }

  /** The calls process makes, for a log h before the call and a log after it. */
  ghost predicate Dismissal(rules: Rules, request: Option<DismissMessageRequest>, h: seq<InboxCall>,
                            log: seq<InboxCall>)
  {
    if !Good(rules, request) then log == h
    else if request.value.dismissAll then log == h + [DeleteAllMessagesForUser(Caller(request.value))]
    else AttemptsEachOnce(h, log, Deletes(Caller(request.value), TargetIds(rules, request.value)))
  }

  // ---------------------------------------------------------------------------
  // Properties

  /** One delete per id: the delete set has as many calls as there are ids. */
  lemma {:induction false} DeletesCount(userId: string, ids: set<string>)
    ensures |Deletes(userId, ids)| == |ids|
    decreases |ids|
  {
    if ids != {} {
      var id :| id in ids;
      var rest := ids - {id};
      DeletesCount(userId, rest);
      assert Deletes(userId, ids) == Deletes(userId, rest) + {DeleteMessageForUser(userId, id)};
    }
  }

  /** The distinct elements of a list are no more than its entries. */
  lemma {:induction false} DistinctAtMost(s: seq<string>)
    ensures |set id | id in s| <= |s|
  {
    if s != [] {
      var init := s[..|s| - 1];
      DistinctAtMost(init);
      assert (set id | id in s) == (set id | id in init) + {s[|s| - 1]} by {
        assert s == init + [s[|s| - 1]];
      }
    }
  }

  /** The dismissed count is at most the single id plus the entries of the list. */
  lemma TargetIdsAtMost(rules: Rules, request: DismissMessageRequest)
    ensures |TargetIds(rules, request)|
      <= (if NullOrEmpty(rules, request.messageId) then 0 else 1)
         + (if request.messageIds.None? then 0 else |request.messageIds.value|)
  {
    if request.messageIds.Some? {
      DistinctAtMost(request.messageIds.value);
    }
  }

  /**
   * Duplicates collapse: a single id "a" and the list ["a", "b", "c"] give three
   * ids, whenever "a" does not count as empty, and a request passing the check with
   * those ids answers that three messages were dismissed.
   */
  lemma OverlappingIdsCountOnce(rules: Rules, fails: (seq<InboxCall>, InboxCall) -> bool, h: seq<InboxCall>,
                                token: Option<Token>)
    requires !rules.emptyMessageId("a")
    ensures var request := DismissMessageRequest(token, Some("a"), Some(["a", "b", "c"]), false);
      && |TargetIds(rules, request)| == 3
      && (Good(rules, Some(request)) ==>
            Expected(rules, fails, h, Some(request)) == Dismissed(DismissMessageResponse(Some(3))))
  {
    var ids := TargetIds(rules, DismissMessageRequest(token, Some("a"), Some(["a", "b", "c"]), false));
    assert ids == {"a", "b", "c"};
    assert |{"a", "b"}| == 2;
  }

  /**
   * A request that fails the check is rejected as an invalid argument, whether or not
   * dismissAll is set, and no inbox call is made.
   */
  lemma InvalidRequestMakesNoCall(rules: Rules, fails: (seq<InboxCall>, InboxCall) -> bool,
                                  request: Option<DismissMessageRequest>, h: seq<InboxCall>, log: seq<InboxCall>)
    requires Dismissal(rules, request, h, log)
    ensures Expected(rules, fails, h, request) == InvalidArgument <==> !Good(rules, request)
    ensures !Good(rules, request) ==> log == h
  {
  }

  /**
   * With dismissAll, exactly one bulk delete is made on the caller's inbox and no
   * single delete; the operation fails with that call's failure when it throws, and
   * otherwise answers with the count left unset.
   */
  lemma DismissAllClearsInboxOnce(rules: Rules, fails: (seq<InboxCall>, InboxCall) -> bool,
                                  request: Option<DismissMessageRequest>, h: seq<InboxCall>, log: seq<InboxCall>)
    requires Good(rules, request) && request.value.dismissAll
    requires Dismissal(rules, request, h, log)
    ensures var clear := DeleteAllMessagesForUser(Caller(request.value));
      && log == h + [clear]
      && (forall c | c in log[|h|..] :: !c.DeleteMessageForUser?)
      && (Expected(rules, fails, h, request) == Failed(clear) <==> fails(h, clear))
      && (!fails(h, clear) ==> Expected(rules, fails, h, request) == Dismissed(DismissMessageResponse(None)))
  {
    assert log[|h|..] == [DeleteAllMessagesForUser(Caller(request.value))];
  }

  /**
   * Without dismissAll, the delete is tried exactly once for every target id, on the
   * caller's inbox, and nothing else is called; the count answered is the number of
   * target ids, which is also the number of calls, whichever deletes throw.
   */
  lemma EachTargetDeletedOnce(rules: Rules, fails: (seq<InboxCall>, InboxCall) -> bool,
                              request: Option<DismissMessageRequest>, h: seq<InboxCall>, log: seq<InboxCall>)
    requires Good(rules, request) && !request.value.dismissAll
    requires Dismissal(rules, request, h, log)
    ensures var ids := TargetIds(rules, request.value);
      var userId := Caller(request.value);
      && (forall id :: multiset(log[|h|..])[DeleteMessageForUser(userId, id)] == (if id in ids then 1 else 0))
      && (forall c | c in log[|h|..] :: c.DeleteMessageForUser? && c.userId == userId)
      && Expected(rules, fails, h, request) == Dismissed(DismissMessageResponse(Some(|ids|)))
      && |log| - |h| == |ids|
  {
    var ids := TargetIds(rules, request.value);
    var userId := Caller(request.value);
    var t := log[|h|..];
    DeletesCount(userId, ids);
    assert |t| == |multiset(t)| == |multiset(Deletes(userId, ids))|;
    forall c | c in t ensures c.DeleteMessageForUser? && c.userId == userId {
      assert c in multiset(t);
    }
  }

  // ---------------------------------------------------------------------------
  // The collaborator and the operation

  /** InboxRepository, as a recorder of the calls it receives. */
  class InboxRepository {
    const fails: (seq<InboxCall>, InboxCall) -> bool
    var log: seq<InboxCall>

    constructor (fails: (seq<InboxCall>, InboxCall) -> bool)
      ensures this.fails == fails && log == []
    {
      this.fails := fails;
      log := [];
    }

    /** Records the call; true when it does not throw. */
    method Record(c: InboxCall) returns (ok: bool)
      modifies this
      ensures log == old(log) + [c]
      ensures ok == !fails(old(log), c)
    {
      ok := !fails(log, c);
      log := log + [c];
    }
  }

  class DismissMessageOperation {
    const inboxRepo: InboxRepository
    const rules: Rules

    constructor (inboxRepo: InboxRepository, rules: Rules)
      ensures this.inboxRepo == inboxRepo && this.rules == rules
    {
      this.inboxRepo := inboxRepo;
      this.rules := rules;
    }

    /** process: the outcome is Expected's, the calls made are those Dismissal allows. */
    method Process(request: Option<DismissMessageRequest>) returns (outcome: Outcome)
      modifies inboxRepo
      ensures outcome == Expected(rules, inboxRepo.fails, old(inboxRepo.log), request)
      ensures Dismissal(rules, request, old(inboxRepo.log), inboxRepo.log)
    {
      if !Good(rules, request) {
        return InvalidArgument;
      }
      var userId := request.value.token.value.userId.value;
      if request.value.dismissAll {
        var cleared := ClearInboxFor(userId);
        if !cleared {
          return Failed(DeleteAllMessagesForUser(userId));
        }
        return Dismissed(DismissMessageResponse(None));
      }
      var messageIds := GetAllMessageIdsFrom(request.value);
      DeleteMessages(userId, messageIds);
      return Dismissed(DismissMessageResponse(Some(|messageIds|)));
    }

    /** clearInboxFor: the bulk delete, whose exception escapes; false when it throws. */
    method ClearInboxFor(userId: string) returns (ok: bool)
      modifies inboxRepo
      ensures inboxRepo.log == old(inboxRepo.log) + [DeleteAllMessagesForUser(userId)]
      ensures ok == !inboxRepo.fails(old(inboxRepo.log), DeleteAllMessagesForUser(userId))
    {
      ok := inboxRepo.Record(DeleteAllMessagesForUser(userId));
    }

    /** getAllMessageIdsFrom: a set filled by adding the single id and then the list. */
    method GetAllMessageIdsFrom(request: DismissMessageRequest) returns (result: set<string>)
      ensures result == TargetIds(rules, request)
    {
      result := {};
      if !NullOrEmpty(rules, request.messageId) {
        result := result + {request.messageId.value};
      }
      if request.messageIds.Some? && |request.messageIds.value| > 0 {
        result := result + set id | id in request.messageIds.value;
      }
    }

    /** deleteMessages: one delete per id, in no particular order. */
    method DeleteMessages(userId: string, messageIds: set<string>)
      modifies inboxRepo
      ensures AttemptsEachOnce(old(inboxRepo.log), inboxRepo.log, Deletes(userId, messageIds))
    {
      ghost var h := inboxRepo.log;
      var remaining := messageIds;
      ghost var done: set<string> := {};
      while remaining != {}
        invariant remaining + done == messageIds && remaining !! done
        invariant AttemptsEachOnce(h, inboxRepo.log, Deletes(userId, done))
        decreases |remaining|
      {
        var msgId :| msgId in remaining;
        ghost var before := inboxRepo.log;
        DeleteMessage(userId, msgId);
        assert inboxRepo.log[|h|..] == before[|h|..] + [DeleteMessageForUser(userId, msgId)];
        assert Deletes(userId, done + {msgId}) == Deletes(userId, done) + {DeleteMessageForUser(userId, msgId)};
        remaining := remaining - {msgId};
        done := done + {msgId};
      }
    }

    /** deleteMessage: the single delete; its exception is caught. */
    method DeleteMessage(userId: string, msgId: string)
      modifies inboxRepo
      ensures inboxRepo.log == old(inboxRepo.log) + [DeleteMessageForUser(userId, msgId)]
    {
      var ok := inboxRepo.Record(DeleteMessageForUser(userId, msgId));
    }
  }
}
