/**
 * The client notification list. Adding appends one notification, under the given id
 * when it is truthy and otherwise under `notif_<time>`, and schedules its removal by
 * id; removing drops every notification with that id. The clock is an input and the
 * timer is returned as a value.
 */
module NotificationStore {
  import opened Common

  datatype Kind = Info | Success | Warning | Error

  /** What a caller passes in: the id and the duration may be left out. */
  datatype NotificationInput = NotificationInput(id: Option<string>, message: string, kind: Kind, duration: Option<int>)

  datatype Notification = Notification(id: string, message: string, kind: Kind, duration: Option<int>)

  /** The scheduled removal: remove `id` after `delay` milliseconds. */
  datatype Timer = Timer(id: string, delay: int)

  datatype Added = Added(notifications: seq<Notification>, timer: Timer)

  const DefaultDuration := 5000

  /** The id a new notification gets at time `now`. */
  function IdFor(input: NotificationInput, now: int): (id: string)
    ensures Truthy(input.id) ==> id == input.id.value
    ensures !Truthy(input.id) ==> id == "notif_" + IntToString(now)
  {
    if Truthy(input.id) then input.id.value else "notif_" + IntToString(now)
  }

  /** `notification.duration || 5000`: a missing or zero duration falls back to the default. */
  function DelayFor(input: NotificationInput): (d: int)
    ensures d != 0
    ensures input.duration.Some? && input.duration.value != 0 ==> d == input.duration.value
    ensures d != DefaultDuration ==> input.duration == Some(d)
  {
    if input.duration.Some? && input.duration.value != 0 then input.duration.value else DefaultDuration
  }

  function AddNotification(ns: seq<Notification>, input: NotificationInput, now: int): (r: Added)
    ensures |r.notifications| == |ns| + 1 && r.notifications[..|ns|] == ns
    ensures var n := r.notifications[|ns|];
            n.id == IdFor(input, now) && n.message == input.message && n.kind == input.kind && n.duration == input.duration
    ensures r.timer == Timer(IdFor(input, now), DelayFor(input))
  {
    var id := IdFor(input, now);
    var ns' := ns + [Notification(id, input.message, input.kind, input.duration)];
    assert ns'[..|ns|] == ns;
    Added(ns', Timer(id, DelayFor(input)))
  }

  function NotId(id: string): Notification -> bool {
    (n: Notification) => n.id != id
  }

  function RemoveNotification(ns: seq<Notification>, id: string): (r: seq<Notification>)
    ensures forall n :: n in r <==> n in ns && n.id != id
  {
    forall n ensures n in Filter(ns, NotId(id)) <==> n in ns && n.id != id {
      FilterIn(ns, NotId(id), n);
    }
    Filter(ns, NotId(id))
  }

  function CountId(ns: seq<Notification>, id: string): (k: nat)
    ensures k <= |ns|
    decreases |ns|
  {
    if ns == [] then 0 else (if ns[0].id == id then 1 else 0) + CountId(ns[1..], id)
  }

  lemma {:induction false} CountIdSnoc(ns: seq<Notification>, n: Notification, id: string)
    ensures CountId(ns + [n], id) == CountId(ns, id) + if n.id == id then 1 else 0
    decreases |ns|
  {
    if ns == [] {
      assert ns + [n] == [n];
    } else {
      assert (ns + [n])[1..] == ns[1..] + [n];
      CountIdSnoc(ns[1..], n, id);
    }
  }

  /** There is no de-duplication: adding under an id already present makes one more entry with it. */
  lemma AddDuplicates(ns: seq<Notification>, input: NotificationInput, now: int)
    ensures var r := AddNotification(ns, input, now);
            CountId(r.notifications, r.timer.id) == CountId(ns, r.timer.id) + 1
  {
    var r := AddNotification(ns, input, now);
    assert r.notifications == ns + [r.notifications[|ns|]];
    CountIdSnoc(ns, r.notifications[|ns|], r.timer.id);
  }

  /** Removing keeps the other notifications in their order. */
  lemma {:induction false} RemoveKeepsOrder(ns: seq<Notification>, id: string, i: nat, j: nat)
    requires i < j < |ns| && ns[i].id != id && ns[j].id != id
    ensures exists a, b :: 0 <= a < b < |RemoveNotification(ns, id)|
                        && RemoveNotification(ns, id)[a] == ns[i] && RemoveNotification(ns, id)[b] == ns[j]
  {
    var keep := NotId(id);
    assert ns == ns[..j] + ns[j..];
    FilterConcat(ns[..j], ns[j..], keep);
    var left := Filter(ns[..j], keep);
    FilterIn(ns[..j], keep, ns[i]);
    assert ns[..j][i] == ns[i];
    var a :| 0 <= a < |left| && left[a] == ns[i];
    assert ns[j..] == [ns[j]] + ns[j + 1..];
    assert Filter(ns[j..], keep)[0] == ns[j];
    assert RemoveNotification(ns, id)[a] == ns[i];
    assert RemoveNotification(ns, id)[|left|] == ns[j];
  }

  /** The scheduled removal takes the notification away again, together with any older one under the same id. */
  lemma TimerUndoesAdd(ns: seq<Notification>, input: NotificationInput, now: int)
    ensures var r := AddNotification(ns, input, now);
            RemoveNotification(r.notifications, r.timer.id) == RemoveNotification(ns, r.timer.id)
  {
    var r := AddNotification(ns, input, now);
    assert r.notifications == ns + [r.notifications[|ns|]];
    FilterConcat(ns, [r.notifications[|ns|]], NotId(r.timer.id));
    assert Filter(ns, NotId(r.timer.id)) + [] == Filter(ns, NotId(r.timer.id));
  }

  /** Removing twice is removing once. */
  lemma RemoveIdempotent(ns: seq<Notification>, id: string)
    ensures RemoveNotification(RemoveNotification(ns, id), id) == RemoveNotification(ns, id)
  {
    var r := RemoveNotification(ns, id);
    FilterAllKept(r, NotId(id));
  }
}
