/** `NotificationService`: a counter that numbers notifications and the ordered
    list of those on screen. The auto-dismiss timer is not run here: `Show`
    returns the timer it would schedule. */
module Notifications {
  import opened Common

  datatype Kind = Success | Error | Warning | Info

  datatype Notification = Notification(id: int, kind: Kind, title: string, message: string)

  /** `setTimeout(() => remove(id), delay)`. */
  datatype Timer = Timer(id: int, delay: int)

  /** The default value of `duration`, used when a caller passes none. */
  const DefaultDuration := 5000

  /** `notifications.filter(n => n.id !== id)`. */
  function WithoutId(list: seq<Notification>, id: int): (r: seq<Notification>)
    ensures forall n :: n in r <==> n in list && n.id != id
    ensures |r| <= |list|
    ensures (forall k :: 0 <= k < |list| ==> list[k].id != id) ==> r == list
  {
    if list == [] then []
    else if list[0].id == id then WithoutId(list[1..], id)
    else [list[0]] + WithoutId(list[1..], id)
  }

  /** Ids strictly increase along the list, so they are unique. */
  predicate IdsIncreasing(list: seq<Notification>) {
    forall i, j :: 0 <= i < j < |list| ==> list[i].id < list[j].id
  }

  /** The tail of an increasing list is increasing, and its ids all exceed
      the head's. */
  lemma IncreasingTail(list: seq<Notification>)
    requires IdsIncreasing(list) && list != []
    ensures IdsIncreasing(list[1..])
    ensures forall m :: 0 <= m < |list| - 1 ==> list[0].id < list[1..][m].id
  {
    forall m | 0 <= m < |list| - 1 ensures list[0].id < list[1..][m].id {
      assert list[1..][m] == list[m + 1];
    }
  }

  /** An entry in front of an increasing list of larger ids keeps it
      increasing. */
  lemma IncreasingCons(x: Notification, rest: seq<Notification>)
    requires IdsIncreasing(rest) && forall n :: n in rest ==> x.id < n.id
    ensures IdsIncreasing([x] + rest)
  {
    var l := [x] + rest;
    forall i, j | 0 <= i < j < |l| ensures l[i].id < l[j].id {
      assert l[j] == rest[j - 1];
      if i > 0 {
        assert l[i] == rest[i - 1];
      } else {
        assert rest[j - 1] in rest;
      }
    }
  }

  /** Removing by id keeps the survivors in their order. */
  lemma {:induction false} WithoutIdKeepsOrder(list: seq<Notification>, id: int)
    requires IdsIncreasing(list)
    ensures IdsIncreasing(WithoutId(list, id))
  {
    if list != [] {
      IncreasingTail(list);
      WithoutIdKeepsOrder(list[1..], id);
      var rest := WithoutId(list[1..], id);
      if list[0].id != id {
        forall n | n in rest ensures list[0].id < n.id {
          var m :| 0 <= m < |list[1..]| && list[1..][m] == n;
        }
        IncreasingCons(list[0], rest);
      }
    }
  }

  /** With unique ids, removing an id that is present takes out exactly one
      entry. */
  lemma {:induction false} WithoutPresentId(list: seq<Notification>, k: nat)
    requires IdsIncreasing(list) && k < |list|
    ensures WithoutId(list, list[k].id) == list[..k] + list[k + 1..]
  {
    IncreasingTail(list);
    if k == 0 {
      WithoutHead(list);
    } else {
      var tail := list[1..];
      assert tail[k - 1] == list[k];
      WithoutPresentId(tail, k - 1);
      WithoutKeepsHead(list, list[k].id);
      Splice(list, k);
    }
  }

  /** Removing the head's id from an increasing list removes just the head. */
  lemma WithoutHead(list: seq<Notification>)
    requires list != []
    requires forall m :: 0 <= m < |list| - 1 ==> list[0].id < list[1..][m].id
    ensures WithoutId(list, list[0].id) == list[..0] + list[1..]
  {
    assert list[..0] + list[1..] == list[1..];
  }

  lemma WithoutKeepsHead(list: seq<Notification>, id: int)
    requires list != [] && list[0].id != id
    ensures WithoutId(list, id) == [list[0]] + WithoutId(list[1..], id)
  {
  }

  lemma Splice(list: seq<Notification>, k: nat)
    requires 0 < k < |list|
    ensures [list[0]] + (list[1..][..k - 1] + list[1..][k..]) == list[..k] + list[k + 1..]
  {
    assert list[1..][..k - 1] == list[1..k];
    assert list[1..][k..] == list[k + 1..];
    assert [list[0]] + list[1..k] == list[..k];
  }

  class NotificationService {
    var notificationId: int
    var notifications: seq<Notification>

    /** The counter never goes below its start; every id shown is positive
        and no larger than the counter, and ids increase along the list. */
    predicate Valid()
      reads this
    {
      0 <= notificationId
      && IdsIncreasing(notifications)
      && forall k :: 0 <= k < |notifications| ==> 0 < notifications[k].id <= notificationId
    }

    constructor ()
      ensures Valid() && notificationId == 0 && notifications == []
    {
      notificationId := 0;
      notifications := [];
    }

    /** Pre-increments the counter, appends a notification with that id, and
        schedules its removal only for a positive duration. */
    method Show(kind: Kind, title: string, message: string, duration: int) returns (timer: Option<Timer>)
      requires Valid()
      modifies this
      ensures Valid()
      ensures notificationId == old(notificationId) + 1
      ensures notifications == old(notifications) + [Notification(notificationId, kind, title, message)]
      ensures forall k :: 0 <= k < |old(notifications)| ==> notifications[k].id < notificationId
      ensures timer.Some? <==> duration > 0
      ensures timer.Some? ==> timer.value == Timer(notificationId, duration)
    {
      var before := notifications;
      assert forall k :: 0 <= k < |before| ==> 0 < before[k].id <= notificationId;
      notificationId := notificationId + 1;
      var id := notificationId;
      notifications := notifications + [Notification(id, kind, title, message)];
      forall k | 0 <= k < |notifications|
        ensures 0 < notifications[k].id <= notificationId
      {
        if k < |before| {
          assert notifications[k] == before[k];
        }
      }
      timer := None;
      if duration > 0 {
        timer := Some(Timer(id, duration));
      }
    }

    method ShowSuccess(title: string, message: string, duration: Option<int>) returns (timer: Option<Timer>)
      requires Valid()
      modifies this
      ensures Valid() && notificationId == old(notificationId) + 1
      ensures notifications == old(notifications) + [Notification(notificationId, Success, title, message)]
      ensures timer.Some? <==> duration.GetOr(DefaultDuration) > 0
      ensures timer.Some? ==> timer.value == Timer(notificationId, duration.GetOr(DefaultDuration))
    {
      timer := Show(Success, title, message, duration.GetOr(DefaultDuration));
    }

    method ShowError(title: string, message: string, duration: Option<int>) returns (timer: Option<Timer>)
      requires Valid()
      modifies this
      ensures Valid() && notificationId == old(notificationId) + 1
      ensures notifications == old(notifications) + [Notification(notificationId, Error, title, message)]
      ensures timer.Some? <==> duration.GetOr(DefaultDuration) > 0
      ensures timer.Some? ==> timer.value == Timer(notificationId, duration.GetOr(DefaultDuration))
    {
      timer := Show(Error, title, message, duration.GetOr(DefaultDuration));
    }

    method ShowWarning(title: string, message: string, duration: Option<int>) returns (timer: Option<Timer>)
      requires Valid()
      modifies this
      ensures Valid() && notificationId == old(notificationId) + 1
      ensures notifications == old(notifications) + [Notification(notificationId, Warning, title, message)]
      ensures timer.Some? <==> duration.GetOr(DefaultDuration) > 0
      ensures timer.Some? ==> timer.value == Timer(notificationId, duration.GetOr(DefaultDuration))
    {
      timer := Show(Warning, title, message, duration.GetOr(DefaultDuration));
    }

    method ShowInfo(title: string, message: string, duration: Option<int>) returns (timer: Option<Timer>)
      requires Valid()
      modifies this
      ensures Valid() && notificationId == old(notificationId) + 1
      ensures notifications == old(notifications) + [Notification(notificationId, Info, title, message)]
      ensures timer.Some? <==> duration.GetOr(DefaultDuration) > 0
      ensures timer.Some? ==> timer.value == Timer(notificationId, duration.GetOr(DefaultDuration))
    {
      timer := Show(Info, title, message, duration.GetOr(DefaultDuration));
    }

    /** Drops the entries with that id, keeps the others in order, and leaves
        the counter alone. */
    method Remove(id: int)
      requires Valid()
      modifies this
      ensures Valid()
      ensures notificationId == old(notificationId)
      ensures notifications == WithoutId(old(notifications), id)
    {
      WithoutIdKeepsOrder(notifications, id);
      notifications := WithoutId(notifications, id);
      forall k | 0 <= k < |notifications|
        ensures 0 < notifications[k].id <= notificationId
      {
        assert notifications[k] in old(notifications);
      }
    }
  }

  /** A notification shown with a positive duration, and then removed when its
      timer fires, leaves the list as it was. */
  method ShowThenExpire(service: NotificationService, title: string, message: string)
    returns (timer: Option<Timer>)
    requires service.Valid()
    modifies service
    ensures timer.Some? && service.notifications == old(service.notifications)
  {
    ghost var before := service.notifications;
    timer := service.ShowInfo(title, message, None);
    ghost var shown := service.notifications;
    assert shown == before + [shown[|before|]];
    assert timer.value.id == shown[|before|].id;
    WithoutPresentId(shown, |before|);
    assert shown[..|before|] + shown[|before| + 1..] == before;
    service.Remove(timer.value.id);
  }
}
