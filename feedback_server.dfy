/** The feedback and match engine of the HTTP server: registration, anonymous feedback with a
    one-unit credit, match detection by counting the feedbacks stored under a pair key, the
    notification query and the two administrative maintenance operations. The three MongoDB
    collections become the fields of one in-memory database object; each request handler is a
    method of it, run to completion before the next one starts. */
module FeedbackServer {
  import opened Shared
  import opened Lists
  import opened Sorting

  /** A user's id; users are numbered in creation order and never deleted. */
  type UserId = nat

  // HTTP status codes the handlers answer with.
  const StatusOk: nat := 200
  const StatusCreated: nat := 201
  const StatusBadRequest: nat := 400
  const StatusForbidden: nat := 403
  const StatusNotFound: nat := 404
  const StatusConflict: nat := 409

  /** The schema default of `feedbackCredit`, and the value reset-credits restores. */
  const DefaultCredit := 1

  /** Clear-old-data removes what is older than fourteen days, in milliseconds. */
  const RetentionMs := 14 * 24 * 60 * 60 * 1000

  // The fixed texts of a match notification.
  const MatchTitle := "new!"
  const MatchMessage := "mutual-positive-feedback-! you have a new match."
  const MatchContactName := "a contact"

  datatype User = User(phoneNumber: string, feedbackCredit: int)

  /** One stored feedback; `pairKey` and `fromUserHash` are opaque strings chosen by the client. */
  datatype Feedback = Feedback(pairKey: string, fromUserHash: string, createdAt: int)

  datatype Notification = Notification(
    user: UserId, kind: Kind, title: string, message: string,
    contactName: string, isRead: bool, createdAt: int)

  /** The body of a feedback request; `None` and `""` stand for a missing or falsy field. */
  datatype FeedbackRequest = FeedbackRequest(fromUserId: Option<UserId>, pairKey: string, fromUserHash: string)

  /** The first check of the feedback handler: some required field is missing. */
  predicate Incomplete(req: FeedbackRequest)
  {
    req.fromUserId.None? || req.pairKey == "" || req.fromUserHash == ""
  }

  /** The notification a successful feedback creates for its sender when it completes a match. */
  function MatchNotification(user: UserId, now: int): Notification
  {
    Notification(user, Match, MatchTitle, MatchMessage, MatchContactName, false, now)
  }

  function ForPair(pairKey: string): Feedback -> bool
  {
    (f: Feedback) => f.pairKey == pairKey
  }

  function ForUser(user: UserId): Notification -> bool
  {
    (n: Notification) => n.user == user
  }

  function FeedbackFrom(cutoff: int): Feedback -> bool
  {
    (f: Feedback) => f.createdAt >= cutoff
  }

  function FeedbackBefore(cutoff: int): Feedback -> bool
  {
    (f: Feedback) => f.createdAt < cutoff
  }

  function NotificationFrom(cutoff: int): Notification -> bool
  {
    (n: Notification) => n.createdAt >= cutoff
  }

  function NotificationBefore(cutoff: int): Notification -> bool
  {
    (n: Notification) => n.createdAt < cutoff
  }

  function CreatedAt(n: Notification): int
  {
    n.createdAt
  }

  /** The number of stored feedbacks under `pairKey`: `Feedback.find({ pairKey }).length`. */
  function PairCount(fs: seq<Feedback>, pairKey: string): nat
  {
    |Filter(fs, ForPair(pairKey))|
  }

  /** Some stored feedback has this pair key and this sender hash. */
  ghost predicate Recorded(fs: seq<Feedback>, pairKey: string, fromUserHash: string)
  {
    exists i :: 0 <= i < |fs| && fs[i].pairKey == pairKey && fs[i].fromUserHash == fromUserHash
  }

  /** No two stored feedbacks share both pair key and sender hash. */
  ghost predicate UniquePairs(fs: seq<Feedback>)
  {
    forall i, j :: 0 <= i < j < |fs| ==> fs[i].pairKey != fs[j].pairKey || fs[i].fromUserHash != fs[j].fromUserHash
  }

  /** The distinct sender hashes stored under `pairKey`. */
  ghost function SendersFor(fs: seq<Feedback>, pairKey: string): set<string>
  {
    set i | 0 <= i < |fs| && fs[i].pairKey == pairKey :: fs[i].fromUserHash
  }

  /** Appending one feedback raises the count of its own pair key by one and leaves every other
      pair key's count alone. */
  lemma CountAfterInsert(fs: seq<Feedback>, f: Feedback, pairKey: string)
    ensures PairCount(fs + [f], pairKey) == PairCount(fs, pairKey) + (if f.pairKey == pairKey then 1 else 0)
  {
    FilterAppend(fs, [f], ForPair(pairKey));
    assert [f][1..] == [];
  }

  /** Of the feedbacks `ins`, appended one at a time after `base`, the number whose insertion
      leaves exactly two feedbacks under `pairKey` and so fires a match for that pair key. */
  function MatchesFired(base: seq<Feedback>, ins: seq<Feedback>, pairKey: string): (r: nat)
    ensures r <= |Filter(ins, ForPair(pairKey))|
    decreases |ins|
  {
    if ins == [] then 0
    else
      var next := base + [ins[0]];
      (if ins[0].pairKey == pairKey && PairCount(next, pairKey) == 2 then 1 else 0)
        + MatchesFired(next, ins[1..], pairKey)
  }

  /** Without deletions a pair key fires a match at most once, and never again once it holds two
      or more feedbacks. */
  lemma {:induction false} AtMostOneMatchPerPair(base: seq<Feedback>, ins: seq<Feedback>, pairKey: string)
    ensures MatchesFired(base, ins, pairKey) <= 1
    ensures PairCount(base, pairKey) >= 2 ==> MatchesFired(base, ins, pairKey) == 0
    decreases |ins|
  {
    if ins != [] {
      var next := base + [ins[0]];
      CountAfterInsert(base, ins[0], pairKey);
      AtMostOneMatchPerPair(next, ins[1..], pairKey);
    }
  }

  /** Dropping the first record keeps (pair key, sender hash) unique. */
  lemma UniqueTail(fs: seq<Feedback>)
    requires fs != [] && UniquePairs(fs)
    ensures UniquePairs(fs[1..])
  {
  }

  /** The senders under a pair key are those of the first record, if it has that key, and those
      of the rest. */
  lemma SendersSplit(fs: seq<Feedback>, pairKey: string)
    requires fs != []
    ensures SendersFor(fs, pairKey)
            == (if fs[0].pairKey == pairKey then {fs[0].fromUserHash} else {}) + SendersFor(fs[1..], pairKey)
  {
    var rest := fs[1..];
    forall h | h in SendersFor(fs, pairKey)
      ensures h in (if fs[0].pairKey == pairKey then {fs[0].fromUserHash} else {}) + SendersFor(rest, pairKey)
    {
      var i :| 0 <= i < |fs| && fs[i].pairKey == pairKey && fs[i].fromUserHash == h;
      if i > 0 {
        assert rest[i - 1] == fs[i];
      }
    }
    forall h | h in SendersFor(rest, pairKey) ensures h in SendersFor(fs, pairKey) {
      var i :| 0 <= i < |rest| && rest[i].pairKey == pairKey && rest[i].fromUserHash == h;
      assert fs[i + 1] == rest[i];
    }
  }

  /** With unique (pair key, sender hash) records, the number of feedbacks under a pair key is the
      number of distinct sender hashes: a count of two is two different hashes. */
  lemma {:induction false} CountIsDistinctSenders(fs: seq<Feedback>, pairKey: string)
    requires UniquePairs(fs)
    ensures PairCount(fs, pairKey) == |SendersFor(fs, pairKey)|
  {
    if fs != [] {
      var rest := fs[1..];
      UniqueTail(fs);
      CountIsDistinctSenders(rest, pairKey);
      SendersSplit(fs, pairKey);
      assert PairCount(fs, pairKey) == (if fs[0].pairKey == pairKey then 1 else 0) + PairCount(rest, pairKey);
      if fs[0].pairKey == pairKey {
        forall i | 0 <= i < |rest| && rest[i].pairKey == pairKey
          ensures rest[i].fromUserHash != fs[0].fromUserHash
        {
          assert fs[i + 1] == rest[i];
        }
        assert fs[0].fromUserHash !in SendersFor(rest, pairKey);
      }
    }
  }

  /** Deleting records, as clear-old-data does, keeps (pair key, sender hash) unique. */
  lemma {:induction false} FilterKeepsUnique(fs: seq<Feedback>, p: Feedback -> bool)
    requires UniquePairs(fs)
    ensures UniquePairs(Filter(fs, p))
  {
    if fs != [] {
      var rest := fs[1..];
      UniqueTail(fs);
      FilterKeepsUnique(rest, p);
      var tail := Filter(rest, p);
      forall j | 0 <= j < |tail|
        ensures tail[j].pairKey != fs[0].pairKey || tail[j].fromUserHash != fs[0].fromUserHash
      {
        var k :| 0 <= k < |rest| && rest[k] == tail[j];
        assert fs[k + 1] == rest[k];
      }
    }
  }

  /** The three collections, changed only by the request handlers below. */
  class Db {
    var users: seq<User>
    var feedbacks: seq<Feedback>
    var notifications: seq<Notification>

    /** Phone numbers are present and unique, credits stay between 0 and the default,
        (pair key, sender hash) is unique among feedbacks, and every notification belongs to an
        existing user. */
    ghost predicate Valid()
      reads this
    {
      && (forall i, j :: 0 <= i < j < |users| ==> users[i].phoneNumber != users[j].phoneNumber)
      && (forall i :: 0 <= i < |users| ==> users[i].phoneNumber != "" && 0 <= users[i].feedbackCredit <= DefaultCredit)
      && UniquePairs(feedbacks)
      && (forall i :: 0 <= i < |notifications| ==> notifications[i].user < |users|)
    }

    constructor ()
      ensures Valid()
      ensures users == [] && feedbacks == [] && notifications == []
    {
      users, feedbacks, notifications := [], [], [];
    }

    /** `User.findOne({ phoneNumber })`. */
    method FindUserByPhone(phoneNumber: string) returns (r: Option<UserId>)
      ensures r.Some? ==> r.value < |users| && users[r.value].phoneNumber == phoneNumber
      ensures r.None? ==> forall i :: 0 <= i < |users| ==> users[i].phoneNumber != phoneNumber
    {
      var i := 0;
      while i < |users|
        invariant 0 <= i <= |users|
        invariant forall j :: 0 <= j < i ==> users[j].phoneNumber != phoneNumber
      {
        if users[i].phoneNumber == phoneNumber {
          return Some(i);
        }
        i := i + 1;
      }
      return None;
    }

    /** `Feedback.findOne({ pairKey, fromUserHash })`: the position of a matching record. */
    method FindFeedback(pairKey: string, fromUserHash: string) returns (r: Option<nat>)
      ensures r.Some? ==> r.value < |feedbacks| && feedbacks[r.value].pairKey == pairKey
                          && feedbacks[r.value].fromUserHash == fromUserHash
      ensures r.None? <==> !Recorded(feedbacks, pairKey, fromUserHash)
    {
      var i := 0;
      while i < |feedbacks|
        invariant 0 <= i <= |feedbacks|
        invariant forall j :: 0 <= j < i ==> feedbacks[j].pairKey != pairKey || feedbacks[j].fromUserHash != fromUserHash
      {
        if feedbacks[i].pairKey == pairKey && feedbacks[i].fromUserHash == fromUserHash {
          return Some(i);
        }
        i := i + 1;
      }
      return None;
    }

    /** `POST /api/register`: find the user with this phone number, or create one with the
        default credit. */
    method Register(phoneNumber: string) returns (status: nat, user: Option<UserId>)
      requires Valid()
      modifies this
      ensures Valid()
      ensures feedbacks == old(feedbacks) && notifications == old(notifications)
      ensures phoneNumber == "" ==> status == StatusBadRequest && user.None? && users == old(users)
      ensures phoneNumber != "" ==> status == StatusOk && user.Some? && user.value < |users|
                                    && users[user.value].phoneNumber == phoneNumber
      ensures forall i :: 0 <= i < |old(users)| && old(users)[i].phoneNumber == phoneNumber ==>
                users == old(users) && user == Some(i)
      ensures phoneNumber != "" && (forall i :: 0 <= i < |old(users)| ==> old(users)[i].phoneNumber != phoneNumber) ==>
                users == old(users) + [User(phoneNumber, DefaultCredit)] && user == Some(|old(users)|)
    {
      if phoneNumber == "" {
        return StatusBadRequest, None;
      }
      user := FindUserByPhone(phoneNumber);
      if user.None? {
        users := users + [User(phoneNumber, DefaultCredit)];
        user := Some(|users| - 1);
      }
      status := StatusOk;
    }

    /** `POST /api/feedback`: the checks in order (fields, sender, credit, duplicate), then store
        the feedback, spend the sender's credit and, when the pair key now holds exactly two
        feedbacks, notify the sender of a match. */
    method SubmitFeedback(req: FeedbackRequest, now: int) returns (status: nat)
      requires Valid()
      modifies this
      ensures Valid()
      ensures Incomplete(req) ==> status == StatusBadRequest
      ensures !Incomplete(req) && req.fromUserId.value >= |old(users)| ==> status == StatusNotFound
      ensures (&& !Incomplete(req) && req.fromUserId.value < |old(users)|
               && old(users)[req.fromUserId.value].feedbackCredit < 1)
              ==> status == StatusForbidden
      ensures (&& !Incomplete(req) && req.fromUserId.value < |old(users)|
               && old(users)[req.fromUserId.value].feedbackCredit >= 1
               && Recorded(old(feedbacks), req.pairKey, req.fromUserHash))
              ==> status == StatusConflict
      ensures (&& !Incomplete(req) && req.fromUserId.value < |old(users)|
               && old(users)[req.fromUserId.value].feedbackCredit >= 1
               && !Recorded(old(feedbacks), req.pairKey, req.fromUserHash))
              ==> status == StatusCreated
      ensures status != StatusCreated ==>
                users == old(users) && feedbacks == old(feedbacks) && notifications == old(notifications)
      ensures status == StatusCreated ==>
                var id := req.fromUserId.value;
                && feedbacks == old(feedbacks) + [Feedback(req.pairKey, req.fromUserHash, now)]
                && users == old(users)[id := old(users)[id].(feedbackCredit := old(users)[id].feedbackCredit - 1)]
                && users[id].feedbackCredit >= 0
                && notifications == old(notifications)
                     + (if PairCount(feedbacks, req.pairKey) == 2 then [MatchNotification(id, now)] else [])
    {
      if Incomplete(req) {
        return StatusBadRequest;
      }
      var id := req.fromUserId.value;
      if id >= |users| {
        return StatusNotFound;
      }
      var fromUser := users[id];
      if fromUser.feedbackCredit < 1 {
        return StatusForbidden;
      }
      var existing := FindFeedback(req.pairKey, req.fromUserHash);
      if existing.Some? {
        return StatusConflict;
      }
      feedbacks := feedbacks + [Feedback(req.pairKey, req.fromUserHash, now)];
      users := users[id := fromUser.(feedbackCredit := fromUser.feedbackCredit - 1)];
      var forPair := Filter(feedbacks, ForPair(req.pairKey));
      if |forPair| == 2 {
        notifications := notifications + [MatchNotification(id, now)];
      }
      status := StatusCreated;
    }

    /** `GET /api/notifications/:userId`: the user's notifications, newest first. */
    method GetNotifications(user: UserId) returns (result: seq<Notification>)
      ensures multiset(result) == multiset(Filter(notifications, ForUser(user)))
      ensures forall i :: 0 <= i < |result| ==> result[i].user == user && result[i] in notifications
      ensures NewestFirst(result, CreatedAt)
    {
      var mine := Filter(notifications, ForUser(user));
      var a := new Notification[|mine|](i requires 0 <= i < |mine| => mine[i]);
      assert a[..] == mine;
      SortNewestFirst(a, CreatedAt);
      result := a[..];
      forall i | 0 <= i < |result| ensures result[i].user == user && result[i] in notifications {
        assert result[i] in multiset(mine);
      }
    }

    /** `POST /api/admin/reset-credits`: every user's credit becomes the default. The schema's
        timestamps make the same update also stamp `updatedAt`, so every user is rewritten and the
        answer is the number of users. */
    method ResetCredits() returns (modifiedCount: nat)
      requires Valid()
      modifies this
      ensures Valid()
      ensures |users| == |old(users)|
      ensures forall i :: 0 <= i < |users| ==> users[i] == old(users)[i].(feedbackCredit := DefaultCredit)
      ensures modifiedCount == |old(users)|
      ensures feedbacks == old(feedbacks) && notifications == old(notifications)
    {
      var i := 0;
      modifiedCount := 0;
      while i < |users|
        invariant 0 <= i <= |users| == |old(users)|
        invariant forall j :: 0 <= j < i ==> users[j] == old(users)[j].(feedbackCredit := DefaultCredit)
        invariant forall j :: i <= j < |users| ==> users[j] == old(users)[j]
        invariant modifiedCount == i
        invariant feedbacks == old(feedbacks) && notifications == old(notifications)
        invariant Valid()
      {
        users := users[i := users[i].(feedbackCredit := DefaultCredit)];
        modifiedCount := modifiedCount + 1;
        i := i + 1;
      }
    }

    /** `POST /api/admin/clear-old-data`: delete the feedbacks and notifications created more than
        fourteen days before `now`; the answers are the numbers deleted. */
    method ClearOldData(now: int) returns (deletedFeedbacks: nat, deletedNotifications: nat)
      requires Valid()
      modifies this
      ensures Valid()
      ensures users == old(users)
      ensures feedbacks == Filter(old(feedbacks), FeedbackFrom(now - RetentionMs))
      ensures notifications == Filter(old(notifications), NotificationFrom(now - RetentionMs))
      ensures forall i :: 0 <= i < |old(feedbacks)| ==>
                (old(feedbacks)[i] in feedbacks <==> old(feedbacks)[i].createdAt >= now - RetentionMs)
      ensures forall i :: 0 <= i < |old(notifications)| ==>
                (old(notifications)[i] in notifications <==> old(notifications)[i].createdAt >= now - RetentionMs)
      ensures deletedFeedbacks + |feedbacks| == |old(feedbacks)|
      ensures deletedNotifications + |notifications| == |old(notifications)|
    {
      var cutoff := now - RetentionMs;
      deletedFeedbacks := |Filter(feedbacks, FeedbackBefore(cutoff))|;
      FilterSplit(feedbacks, FeedbackBefore(cutoff), FeedbackFrom(cutoff));
      FilterKeepsUnique(feedbacks, FeedbackFrom(cutoff));
      feedbacks := Filter(feedbacks, FeedbackFrom(cutoff));
      deletedNotifications := |Filter(notifications, NotificationBefore(cutoff))|;
      FilterSplit(notifications, NotificationBefore(cutoff), NotificationFrom(cutoff));
      notifications := Filter(notifications, NotificationFrom(cutoff));
    }
  }

  /** Registering the same phone number twice: the second call answers like the first, and the
      users end as one registration leaves them. */
  method RegisterTwice(db: Db, phoneNumber: string)
    returns (first: nat, firstUser: Option<UserId>, second: nat, secondUser: Option<UserId>)
    requires db.Valid()
    modifies db
    ensures db.Valid()
    ensures second == first && secondUser == firstUser
    ensures db.users == (if phoneNumber == "" || exists i :: 0 <= i < |old(db.users)| && old(db.users)[i].phoneNumber == phoneNumber
                         then old(db.users) else old(db.users) + [User(phoneNumber, DefaultCredit)])
    ensures db.feedbacks == old(db.feedbacks) && db.notifications == old(db.notifications)
  {
    first, firstUser := db.Register(phoneNumber);
    second, secondUser := db.Register(phoneNumber);
  }

  /** Resetting credits twice: both calls report every user, and the users end as one reset leaves
      them. */
  method ResetCreditsTwice(db: Db) returns (first: nat, second: nat)
    requires db.Valid()
    modifies db
    ensures db.Valid()
    ensures first == second == |old(db.users)| == |db.users|
    ensures forall i :: 0 <= i < |db.users| ==> db.users[i] == old(db.users)[i].(feedbackCredit := DefaultCredit)
    ensures db.feedbacks == old(db.feedbacks) && db.notifications == old(db.notifications)
  {
    first := db.ResetCredits();
    second := db.ResetCredits();
  }

  /** A fresh database holding two registered users, 0 and 1, with the default credit. */
  method TwoUsers() returns (db: Db)
    ensures fresh(db) && db.Valid()
    ensures db.users == [User("+1-555-0100", DefaultCredit), User("+1-555-0101", DefaultCredit)]
    ensures db.feedbacks == [] && db.notifications == []
  {
    db := new Db();
    var _, a := db.Register("+1-555-0100");
    var _, b := db.Register("+1-555-0101");
  }

  /** User 0 sends the first feedback under a pair key: accepted, no match yet. */
  method FirstFeedback(now: int) returns (db: Db, first: nat)
    ensures fresh(db) && db.Valid() && first == StatusCreated
    ensures db.users == [User("+1-555-0100", 0), User("+1-555-0101", DefaultCredit)]
    ensures db.feedbacks == [Feedback("pair", "hash-a", now)] && db.notifications == []
  {
    db := TwoUsers();
    assert !Recorded([], "pair", "hash-a");
    first := db.SubmitFeedback(FeedbackRequest(Some(0), "pair", "hash-a"), now);
    assert PairCount([Feedback("pair", "hash-a", now)], "pair") == 1;
  }

  /** User 1 then sends feedback under the same pair key: accepted, and user 1 alone is notified. */
  method SecondFeedback(now: int) returns (db: Db, first: nat, second: nat)
    ensures fresh(db) && db.Valid() && first == StatusCreated && second == StatusCreated
    ensures db.users == [User("+1-555-0100", 0), User("+1-555-0101", 0)]
    ensures db.notifications == [MatchNotification(1, now)]
  {
    var fa := Feedback("pair", "hash-a", now);
    var fb := Feedback("pair", "hash-b", now);
    db, first := FirstFeedback(now);
    assert !Recorded([fa], "pair", "hash-b") by {
      assert [fa][0].fromUserHash != "hash-b";
    }
    second := db.SubmitFeedback(FeedbackRequest(Some(1), "pair", "hash-b"), now);
    assert db.feedbacks == [fa] + [fb];
    CountAfterInsert([fa], fb, "pair");
  }

  /** Two users send feedback under the same pair key, then the first one tries again. Only the
      second sender, whose feedback completes the pair, is notified; the repeat is refused for
      lack of credit before the duplicate check is reached. */
  method MutualFeedbackScenario(now: int)
    returns (first: nat, second: nat, repeat: nat, forA: seq<Notification>, forB: seq<Notification>)
    ensures first == StatusCreated && second == StatusCreated && repeat == StatusForbidden
    ensures forA == []
    ensures forB == [MatchNotification(1, now)]
  {
    var matched := MatchNotification(1, now);
    var db;
    db, first, second := SecondFeedback(now);
    repeat := db.SubmitFeedback(FeedbackRequest(Some(0), "pair", "hash-a"), now);
    assert db.notifications == [matched];
    forA := db.GetNotifications(0);
    assert Filter([matched], ForUser(0)) == [];
    forB := db.GetNotifications(1);
    assert Filter([matched], ForUser(1)) == [matched];
    assert |forB| == 1 && forB[0] in multiset(forB);
  }

  /** A sender hash is not tied to the sending user: user 0 sends feedback under a pair key, the
      credits are reset, and user 0 sends again under the same pair key with another hash. Both
      are accepted and user 0 alone receives a match. */
  method SelfMatchScenario(now: int) returns (first: nat, second: nat, db: Db)
    ensures first == StatusCreated && second == StatusCreated
    ensures db.notifications == [MatchNotification(0, now)]
  {
    var f1 := Feedback("pair", "hash-a", now);
    var f2 := Feedback("pair", "hash-c", now);
    db, first := FirstFeedback(now);
    var _ := db.ResetCredits();
    assert db.users[0].feedbackCredit == DefaultCredit;
    assert !Recorded([f1], "pair", "hash-c") by {
      assert [f1][0].fromUserHash != "hash-c";
    }
    second := db.SubmitFeedback(FeedbackRequest(Some(0), "pair", "hash-c"), now);
    assert db.feedbacks == [f1] + [f2];
    CountAfterInsert([f1], f2, "pair");
  }
}
