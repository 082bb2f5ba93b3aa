/**
 * The notification service's in-memory table, its handlers (create, list by
 * user, status patch, delete) and the service's own `apiStats` counters,
 * kept the same way as the payment service's.
 */
module NotificationService {
  import opened Common
  import opened Stats

  /** `kind` is the record's `type` field. */
  datatype Notification = Notification(
    id: string,
    userId: string,
    kind: string,
    message: string,
    priority: string,
    status: string,
    createdAt: int,
    sentAt: Option<int>)

  const MissingFields: string := "Brak wymaganych pól"
  const InvalidStatus: string := "Nieprawidłowy status"
  const NotificationNotFound: string := "Nie znaleziono powiadomienia"

  /** The statuses the status patch accepts. */
  predicate IsNotificationStatus(s: Option<string>) {
    s == Some("pending") || s == Some("sent") || s == Some("failed")
  }

  predicate HasRequiredFields(userId: Option<string>, kind: Option<string>, message: Option<string>) {
    Truthy(userId) && Truthy(kind) && Truthy(message)
  }

  /** The destructuring default `priority = 'normal'`: it applies only when the field is absent. */
  function PriorityOrDefault(priority: Option<string>): (p: string)
    ensures priority.Some? ==> p == priority.value
    ensures priority.None? ==> p == "normal"
  {
    if priority.Some? then priority.value else "normal"
  }

  predicate StatusIs(n: Notification, status: Option<string>) {
    status.Some? && n.status == status.value
  }

  predicate KindIs(n: Notification, kind: Option<string>) {
    kind.Some? && n.kind == kind.value
  }

  predicate PriorityIs(n: Notification, priority: Option<string>) {
    priority.Some? && n.priority == priority.value
  }

  /** A notification belongs to the user and satisfies every supplied (truthy) filter, compared exactly. */
  predicate MatchesListing(n: Notification, userId: string, status: Option<string>, kind: Option<string>,
                           priority: Option<string>) {
    && n.userId == userId
    && (Truthy(status) ==> StatusIs(n, status))
    && (Truthy(kind) ==> KindIs(n, kind))
    && (Truthy(priority) ==> PriorityIs(n, priority))
  }

  class Notifications {
    var notifications: seq<Notification>
    const stats: ApiStats

    /** As in the payment service, only success paths count requests. */
    ghost predicate Valid()
      reads this, stats
    {
      stats.Valid() && stats.totalRequests == stats.successfulRequests
    }

    constructor ()
      ensures Valid() && fresh(stats) && notifications == []
      ensures stats.totalRequests == 0 && stats.successfulRequests == 0
      ensures stats.failedRequests == 0 && stats.averageResponseTime == 0.0
    {
      notifications := [];
      stats := new ApiStats();
    }

    /** `notifications.findIndex(n => n.id === id)`. */
    function IndexOf(id: string): (r: Option<nat>)
      reads this
      ensures r.Some? ==> r.value < |notifications| && notifications[r.value].id == id
      ensures r.Some? ==> forall j :: 0 <= j < r.value ==> notifications[j].id != id
      ensures r.None? <==> forall j :: 0 <= j < |notifications| ==> notifications[j].id != id
    {
      FindIndex(notifications, (n: Notification) => n.id == id)
    }

    /** The listing's result: the user's notifications, narrowed by each supplied filter in turn. */
    function OfUser(userId: string, status: Option<string>, kind: Option<string>, priority: Option<string>)
      : (r: seq<Notification>)
      reads this
      ensures r == Filter(notifications, (n: Notification) => MatchesListing(n, userId, status, kind, priority))
      ensures IsSubsequence(r, notifications)
      ensures forall i :: 0 <= i < |r| ==> MatchesListing(r[i], userId, status, kind, priority)
      ensures forall i :: 0 <= i < |notifications| && MatchesListing(notifications[i], userId, status, kind, priority) ==>
        notifications[i] in r
    {
      var ofUser := (n: Notification) => n.userId == userId;
      var byStatus := (n: Notification) => StatusIs(n, status);
      var byKind := (n: Notification) => KindIs(n, kind);
      var byPriority := (n: Notification) => PriorityIs(n, priority);
      FilterNarrowThree(notifications, ofUser, Truthy(status), byStatus, Truthy(kind), byKind,
                        Truthy(priority), byPriority,
                        (n: Notification) => MatchesListing(n, userId, status, kind, priority));
      Narrow(Narrow(Narrow(Filter(notifications, ofUser), Truthy(status), byStatus), Truthy(kind), byKind),
             Truthy(priority), byPriority)
    }

    /** The three counter updates of a success path. */
    method RecordSuccess(elapsed: int)
      requires Valid()
      modifies stats
      ensures Valid() && stats.CountedSuccess(elapsed)
    {
      stats.CountSuccess();
      stats.CountRequest(elapsed);
    }

    /**
      * POST /api/notifications. A body with userId, type and message appends
      * one pending, unsent notification; the priority defaults to 'normal'.
      */
    method Create(userId: Option<string>, kind: Option<string>, message: Option<string>,
                  priority: Option<string>, freshId: string, now: int, elapsed: int)
      returns (r: Reply<Notification>)
      requires Valid()
      modifies this, stats
      ensures Valid()
      ensures !HasRequiredFields(userId, kind, message) ==>
        && r == Fail(400, MissingFields) && notifications == old(notifications)
        && stats.CountedFailure()
      ensures HasRequiredFields(userId, kind, message) ==>
        && r.Ok? && r.status == 201
        && notifications == old(notifications) + [r.value]
        && r.value == Notification(freshId, userId.value, kind.value, message.value,
                                   PriorityOrDefault(priority), "pending", now, None)
        && stats.CountedSuccess(elapsed)
      ensures HasRequiredFields(userId, kind, message) && old(IndexOf(freshId)).None? ==>
        IndexOf(freshId) == Some(|old(notifications)|)
    {
      if !HasRequiredFields(userId, kind, message) {
        stats.CountFailure();
        return Fail(400, MissingFields);
      }
      var notification := Notification(freshId, userId.value, kind.value, message.value,
                                        PriorityOrDefault(priority), "pending", now, None);
      FindIndexAppend(notifications, notification, (n: Notification) => n.id == freshId);
      notifications := notifications + [notification];
      RecordSuccess(elapsed);
      r := Ok(201, notification);
    }

    /** GET /api/notifications/user/:userId: always succeeds. */
    method ListByUser(userId: string, status: Option<string>, kind: Option<string>, priority: Option<string>,
                      elapsed: int) returns (r: seq<Notification>)
      requires Valid()
      modifies stats
      ensures Valid()
      ensures r == OfUser(userId, status, kind, priority) && stats.CountedSuccess(elapsed)
    {
      r := OfUser(userId, status, kind, priority);
      RecordSuccess(elapsed);
    }

    /**
      * PATCH /api/notifications/:id/status. The status is validated before
      * the id is looked up. `sentAt` is stamped only when the new status is
      * 'sent' and otherwise left as it was.
      */
    method PatchStatus(id: string, status: Option<string>, now: int, elapsed: int)
      returns (r: Reply<Notification>)
      requires Valid()
      modifies this, stats
      ensures Valid()
      ensures !IsNotificationStatus(status) ==>
        r == Fail(400, InvalidStatus) && notifications == old(notifications) && stats.CountedFailure()
      ensures IsNotificationStatus(status) && old(IndexOf(id)).None? ==>
        r == Fail(404, NotificationNotFound) && notifications == old(notifications) && stats.CountedFailure()
      ensures IsNotificationStatus(status) && old(IndexOf(id)).Some? ==>
        var i := old(IndexOf(id)).value;
        var n := old(notifications)[i];
        && notifications == old(notifications)[i := n.(status := status.value,
                                                         sentAt := if status.value == "sent" then Some(now) else n.sentAt)]
        && r == Ok(200, notifications[i])
        && stats.CountedSuccess(elapsed)
    {
      if !IsNotificationStatus(status) {
        stats.CountFailure();
        return Fail(400, InvalidStatus);
      }
      var index := IndexOf(id);
      if index.None? {
        stats.CountFailure();
        return Fail(404, NotificationNotFound);
      }
      var i := index.value;
      var n := notifications[i].(status := status.value);
      if status.value == "sent" {
        n := n.(sentAt := Some(now));
      }
      notifications := notifications[i := n];
      RecordSuccess(elapsed);
      r := Ok(200, n);
    }

    /** DELETE /api/notifications/:id: removes the first notification with that id and answers 204. */
    method Delete(id: string, elapsed: int) returns (r: Reply<Notification>)
      requires Valid()
      modifies this, stats
      ensures Valid()
      ensures old(IndexOf(id)).None? ==>
        r == Fail(404, NotificationNotFound) && notifications == old(notifications) && stats.CountedFailure()
      ensures old(IndexOf(id)).Some? ==>
        && notifications == RemoveAt(old(notifications), old(IndexOf(id)).value)
        && r == NoContent(204)
        && stats.CountedSuccess(elapsed)
    {
      var index := IndexOf(id);
      if index.None? {
        stats.CountFailure();
        return Fail(404, NotificationNotFound);
      }
      notifications := RemoveAt(notifications, index.value);
      RecordSuccess(elapsed);
      r := NoContent(204);
    }
  }
}
