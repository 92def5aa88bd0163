/** The notification store: a queue of transient messages. Adding stamps a
    message with a fresh id and the current time and, when it carries a
    truthy duration, schedules its removal after that many milliseconds. The
    timer itself is not modelled: adding returns the scheduled removal, and
    performing it later is a call of `RemoveNotification`. */
module Notifications {
  import opened Options
  import opened Seqs

  datatype Kind = Success | Error | Warning | Info

  datatype Notification = Notification(
    id: string, kind: Kind, message: string, duration: Option<int>, timestamp: int)

  /** A removal scheduled to happen `delay` milliseconds after adding. */
  datatype Timer = Timer(notificationId: string, delay: int)

  /** JavaScript truthiness of an optional number: present and non-zero (a
      negative duration is truthy too). */
  predicate DurationTruthy(duration: Option<int>) {
    duration.Some? && duration.value != 0
  }

  /** The removal `addNotification` schedules: one for the new id, after the
      duration, exactly when the duration is truthy. */
  function ScheduledRemoval(id: string, duration: Option<int>): (t: Option<Timer>)
    ensures t.Some? <==> DurationTruthy(duration)
    ensures t.Some? ==> t.value == Timer(id, duration.value)
  {
    if DurationTruthy(duration) then Some(Timer(id, duration.value)) else None
  }

  /** `notifications.filter(n => n.id !== id)`. */
  function Remove(ns: seq<Notification>, id: string): (r: seq<Notification>)
    ensures forall n :: n in r <==> n in ns && n.id != id
    ensures |r| <= |ns|
  {
    Filter(ns, (n: Notification) => n.id != id)
  }

  /** Removal keeps the order of the rest, and a second removal of the same
      id, such as a timer firing after a manual removal, changes nothing. */
  lemma RemoveKeepsOrderAndIsIdempotent(ns: seq<Notification>, id: string)
    ensures IsSubsequence(Remove(ns, id), ns)
    ensures Remove(Remove(ns, id), id) == Remove(ns, id)
  {
    FilterIsSubsequence(ns, (n: Notification) => n.id != id);
    FilterIdempotent(ns, (n: Notification) => n.id != id);
  }

  /** Removing a just-added notification whose id was fresh restores the
      queue as it was before the add. */
  lemma RemoveAfterAdd(ns: seq<Notification>, n: Notification)
    requires forall m :: m in ns ==> m.id != n.id
    ensures Remove(ns + [n], n.id) == ns
  {
    var p := (m: Notification) => m.id != n.id;
    FilterConcat(ns, [n], p);
    FilterKeepsAll(ns, p);
    assert Filter([n], p) == [] + Filter([], p);
  }

  class NotificationStore {
    var notifications: seq<Notification>
    var loading: bool
    var error: Option<string>

    constructor ()
      ensures notifications == [] && !loading && error == None
    {
      notifications := [];
      loading := false;
      error := None;
    }

    /** activeNotifications: the queue as it stands. */
    function ActiveNotifications(): seq<Notification>
      reads this
    {
      notifications
    }

    /** Appends the stamped notification and returns it with the removal
        it schedules, if any. */
    method AddNotification(kind: Kind, message: string, duration: Option<int>, freshId: string, now: int)
      returns (added: Notification, timer: Option<Timer>)
      modifies this
      ensures added == Notification(freshId, kind, message, duration, now)
      ensures notifications == old(notifications) + [added]
      ensures timer == ScheduledRemoval(freshId, duration)
      ensures loading == old(loading) && error == old(error)
    {
      added := Notification(freshId, kind, message, duration, now);
      notifications := notifications + [added];
      if DurationTruthy(duration) {
        timer := Some(Timer(added.id, duration.value));
      } else {
        timer := None;
      }
    }

    /** Also what a scheduled timer does when it fires. */
    method RemoveNotification(id: string)
      modifies this
      ensures notifications == Remove(old(notifications), id)
      ensures loading == old(loading) && error == old(error)
    {
      notifications := Remove(notifications, id);
    }

    method ClearNotifications()
      modifies this
      ensures notifications == []
      ensures loading == old(loading) && error == old(error)
    {
      notifications := [];
    }

    method AddSuccess(message: string, freshId: string, now: int, duration: Option<int> := None)
      returns (added: Notification, timer: Option<Timer>)
      modifies this
      ensures added == Notification(freshId, Success, message, duration, now)
      ensures notifications == old(notifications) + [added]
      ensures timer == ScheduledRemoval(freshId, duration)
      ensures loading == old(loading) && error == old(error)
    {
      added, timer := AddNotification(Success, message, duration, freshId, now);
    }

    method AddError(message: string, freshId: string, now: int, duration: Option<int> := None)
      returns (added: Notification, timer: Option<Timer>)
      modifies this
      ensures added == Notification(freshId, Error, message, duration, now)
      ensures notifications == old(notifications) + [added]
      ensures timer == ScheduledRemoval(freshId, duration)
      ensures loading == old(loading) && error == old(error)
    {
      added, timer := AddNotification(Error, message, duration, freshId, now);
    }

    method AddWarning(message: string, freshId: string, now: int, duration: Option<int> := None)
      returns (added: Notification, timer: Option<Timer>)
      modifies this
      ensures added == Notification(freshId, Warning, message, duration, now)
      ensures notifications == old(notifications) + [added]
      ensures timer == ScheduledRemoval(freshId, duration)
      ensures loading == old(loading) && error == old(error)
    {
      added, timer := AddNotification(Warning, message, duration, freshId, now);
    }

    method AddInfo(message: string, freshId: string, now: int, duration: Option<int> := None)
      returns (added: Notification, timer: Option<Timer>)
      modifies this
      ensures added == Notification(freshId, Info, message, duration, now)
      ensures notifications == old(notifications) + [added]
      ensures timer == ScheduledRemoval(freshId, duration)
      ensures loading == old(loading) && error == old(error)
    {
      added, timer := AddNotification(Info, message, duration, freshId, now);
    }
  }

  /** A notification added with a truthy duration under a fresh id is gone
      once its timer fires, and the rest of the queue is as it was; without
      a truthy duration nothing is scheduled. */
  method AddThenExpire(store: NotificationStore, message: string, duration: Option<int>, freshId: string, now: int)
    requires forall m :: m in store.notifications ==> m.id != freshId
    modifies store
    ensures DurationTruthy(duration) ==> store.notifications == old(store.notifications)
    ensures !DurationTruthy(duration) ==> store.notifications == old(store.notifications) + [Notification(freshId, Info, message, duration, now)]
  {
    var added, timer := store.AddInfo(message, freshId, now, duration);
    if timer.Some? {
      RemoveAfterAdd(old(store.notifications), added);
      store.RemoveNotification(timer.value.notificationId);
    }
  }
}
