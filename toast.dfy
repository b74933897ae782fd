/** The toast broadcast: a process-wide id counter and listener list (`Bus`), and
    per subscriber (`Subscriber`, one mounted `useToast`) a local list of toasts with
    the auto-removal timers that were scheduled for them. Timers are explicit: a
    scheduled removal is recorded, and `FireTimer` is the event of it firing. */
module Toast {
  import opened Wrappers
  import Decimal
  import Seqs

  datatype ToastType = Success | Error | Info | Warning

  /** The optional `duration` number: undefined, a finite number of milliseconds, or
      `Number.POSITIVE_INFINITY`. */
  datatype Duration = Unset | Millis(ms: int) | Forever

  datatype ToastMessage = ToastMessage(
    id: string, kind: ToastType, title: string, message: Option<string>, duration: Duration)

  /** A pending `setTimeout` that will remove the toast with this id. */
  datatype Timer = Timer(id: string, delay: int)

  const DefaultDelay: int := 3000

  /** The auto-removal delay: none for an infinite duration, otherwise
      `duration || 3000`, so an unset or zero duration waits 3000 ms. */
  function AutoRemoveDelay(d: Duration): (r: Option<int>)
    ensures d.Forever? <==> r.None?
    ensures d.Unset? || d == Millis(0) ==> r == Some(DefaultDelay)
    ensures d.Millis? && d.ms != 0 ==> r == Some(d.ms)
  {
    match d
    case Forever => None
    case Unset => Some(DefaultDelay)
    case Millis(ms) => if ms == 0 then Some(DefaultDelay) else Some(ms)
  }

  /** The timers a subscriber schedules on receiving `t`: one, unless `t` never expires. */
  function TimersFor(t: ToastMessage): (r: seq<Timer>)
    ensures |r| == (if t.duration.Forever? then 0 else 1)
    ensures forall i :: 0 <= i < |r| ==> r[i].id == t.id && Some(r[i].delay) == AutoRemoveDelay(t.duration)
  {
    match AutoRemoveDelay(t.duration)
    case None => []
    case Some(delay) => [Timer(t.id, delay)]
  }

  /** `prev.filter((t) => t.id !== id)`. */
  function RemoveById(ts: seq<ToastMessage>, id: string): (r: seq<ToastMessage>)
    ensures forall i :: 0 <= i < |r| ==> r[i].id != id && r[i] in ts
    ensures forall i :: 0 <= i < |ts| && ts[i].id != id ==> ts[i] in r
    ensures |r| <= |ts|
  {
    if ts == [] then []
    else if ts[0].id == id then RemoveById(ts[1..], id)
    else [ts[0]] + RemoveById(ts[1..], id)
  }

  predicate HasId(ts: seq<ToastMessage>, id: string) {
    exists i :: 0 <= i < |ts| && ts[i].id == id
  }

  /** Removing an id that is not in the list leaves the list as it was. */
  lemma {:induction false} RemoveMissingId(ts: seq<ToastMessage>, id: string)
    requires !HasId(ts, id)
    ensures RemoveById(ts, id) == ts
  {
    if ts != [] {
      assert ts[0].id != id;
      assert !HasId(ts[1..], id) by {
        forall i | 0 <= i < |ts[1..]| ensures ts[1..][i].id != id {
          assert ts[1..][i] == ts[i + 1];
        }
      }
      RemoveMissingId(ts[1..], id);
    }
  }

  /** A second removal of the same id (the timer firing after a manual dismiss, or
      the other way round) is a no-op. */
  lemma RemoveTwice(ts: seq<ToastMessage>, id: string)
    ensures RemoveById(RemoveById(ts, id), id) == RemoveById(ts, id)
  {
    RemoveMissingId(RemoveById(ts, id), id);
  }

  /** Removal distributes over concatenation, so the kept entries stay in their
      order. */
  lemma {:induction false} RemoveByIdAppend(a: seq<ToastMessage>, b: seq<ToastMessage>, id: string)
    ensures RemoveById(a + b, id) == RemoveById(a, id) + RemoveById(b, id)
  {
    if a == [] {
      assert a + b == b;
    } else {
      assert (a + b)[1..] == a[1..] + b;
      RemoveByIdAppend(a[1..], b, id);
    }
  }

  /** When exactly one entry carries the id, removal takes out that entry and keeps
      the others in their order. */
  lemma RemoveOnlyEntry(before: seq<ToastMessage>, t: ToastMessage, after: seq<ToastMessage>)
    requires !HasId(before, t.id) && !HasId(after, t.id)
    ensures RemoveById(before + [t] + after, t.id) == before + after
  {
    RemoveByIdAppend(before + [t], after, t.id);
    RemoveByIdAppend(before, [t], t.id);
    RemoveMissingId(before, t.id);
    RemoveMissingId(after, t.id);
    assert RemoveById([t], t.id) == [] by {
      assert [t][0].id == t.id && [t][1..] == [];
    }
    assert RemoveById(before + [t], t.id) == before;
  }

  /** Two calls with different counter values get different ids. */
  lemma DistinctCountersDistinctIds(a: nat, b: nat)
    requires a != b
    ensures Decimal.NatToString(a) != Decimal.NatToString(b)
  {
    if Decimal.NatToString(a) == Decimal.NatToString(b) {
      Decimal.NatToStringInjective(a, b);
    }
  }

  /** One mounted `useToast`: its `toasts` state and its pending removal timers. */
  class Subscriber {
    var toasts: seq<ToastMessage>
    var timers: seq<Timer>

    constructor ()
      ensures toasts == [] && timers == []
    {
      toasts, timers := [], [];
    }

    /** `handleToast`: append the toast and, unless it never expires, schedule its
        removal. */
    method Receive(t: ToastMessage)
      modifies this
      ensures toasts == old(toasts) + [t]
      ensures timers == old(timers) + TimersFor(t)
    {
      toasts := toasts + [t];
      timers := timers + TimersFor(t);
    }

    /** `removeToast`: the manual dismiss. */
    method RemoveToast(id: string)
      modifies this`toasts
      ensures toasts == RemoveById(old(toasts), id)
    {
      toasts := RemoveById(toasts, id);
    }

    /** The pending timer at `index` fires: it is gone and its toast is removed. */
    method FireTimer(index: nat)
      requires index < |timers|
      modifies this
      ensures timers == old(timers[..index] + timers[index + 1..])
      ensures toasts == RemoveById(old(toasts), old(timers[index].id))
    {
      var id := timers[index].id;
      timers := timers[..index] + timers[index + 1..];
      RemoveToast(id);
    }
  }

  /** The module-level `toastId` counter and `listeners` array. */
  class Bus {
    var nextId: nat
    var listeners: seq<Subscriber>
    /** The listeners the latest `ShowToast` delivered to, in delivery order. */
    ghost var lastDelivery: seq<Subscriber>

    /** Each handler is a fresh closure, so no listener is registered twice. */
    ghost predicate Valid()
      reads this
    {
      Seqs.NoDup(listeners)
    }

    constructor ()
      ensures Valid() && nextId == 0 && listeners == []
    {
      nextId, listeners, lastDelivery := 0, [], [];
    }

    /** A `useToast` mounts: its handler goes to the end of the list. */
    method Subscribe() returns (s: Subscriber)
      requires Valid()
      modifies this`listeners
      ensures Valid() && fresh(s)
      ensures listeners == old(listeners) + [s]
      ensures s.toasts == [] && s.timers == []
    {
      s := new Subscriber();
      listeners := listeners + [s];
    }

    /** The effect's cleanup: that handler is filtered out and the others keep their
        order. */
    method Unsubscribe(s: Subscriber)
      requires Valid()
      modifies this`listeners
      ensures Valid()
      ensures listeners == Seqs.RemoveAll(old(listeners), s)
      ensures s !in listeners && |listeners| == |old(listeners)| - (if s in old(listeners) then 1 else 0)
    {
      ghost var was := listeners;
      listeners := Seqs.RemoveAll(listeners, s);
      Seqs.RemoveAllNoDup(was, s);
      if s in was {
        var k :| 0 <= k < |was| && was[k] == s;
        assert was == was[..k] + [s] + was[k + 1..];
        assert s !in was[..k] && s !in was[k + 1..] by {
          forall j | 0 <= j < |was| && j != k ensures was[j] != s {
          }
        }
        Seqs.RemoveSingle(was[..k], s, was[k + 1..]);
      } else {
        Seqs.RemoveAbsent(was, s);
      }
    }

    /** `showToast`: the current counter value, as a string, is the id and the
        counter goes up by one (with or without listeners); then every listener, in
        registration order, receives the same message once. Nothing else changes,
        so with no listeners only the counter moves. */
    method ShowToast(kind: ToastType, title: string, message: Option<string>, duration: Duration)
      returns (t: ToastMessage)
      requires Valid()
      modifies this`nextId, this`lastDelivery, listeners
      ensures Valid() && listeners == old(listeners)
      ensures t == ToastMessage(Decimal.NatToString(old(nextId)), kind, title, message, duration)
      ensures nextId == old(nextId) + 1
      ensures lastDelivery == listeners
      ensures forall j :: 0 <= j < |listeners| ==>
        listeners[j].toasts == old(listeners[j].toasts) + [t] &&
        listeners[j].timers == old(listeners[j].timers) + TimersFor(t)
    {
      t := ToastMessage(Decimal.NatToString(nextId), kind, title, message, duration);
      nextId := nextId + 1;
      lastDelivery := [];
      var i := 0;
      while i < |listeners|
        invariant 0 <= i <= |listeners| && listeners == old(listeners)
        invariant nextId == old(nextId) + 1
        invariant lastDelivery == listeners[..i]
        invariant forall j :: 0 <= j < i ==>
          listeners[j].toasts == old(listeners[j].toasts) + [t] &&
          listeners[j].timers == old(listeners[j].timers) + TimersFor(t)
        invariant forall j :: i <= j < |listeners| ==>
          listeners[j].toasts == old(listeners[j].toasts) && listeners[j].timers == old(listeners[j].timers)
      {
        listeners[i].Receive(t);
        lastDelivery := lastDelivery + [listeners[i]];
        i := i + 1;
      }
    }
  }

  /** One subscriber, one default-duration toast: it is listed at once under id "0"
      with a 3000 ms timer; when that timer fires the list is empty again. */
  method DefaultToastLifecycle() returns (listed: seq<ToastMessage>, delay: int, afterTimer: seq<ToastMessage>)
    ensures |listed| == 1 && listed[0].id == "0" && listed[0].title == "Saved" && listed[0].kind == Success
    ensures delay == 3000 && afterTimer == []
  {
    var bus := new Bus();
    var s := bus.Subscribe();
    assert bus.listeners == [s];
    var t := bus.ShowToast(Success, "Saved", None, Unset);
    assert bus.listeners[0] == s;
    assert s.timers == [Timer(t.id, 3000)];
    listed := s.toasts;
    delay := s.timers[0].delay;
    s.FireTimer(0);
    afterTimer := s.toasts;
  }

  /** A toast dismissed by hand and then removed again by its timer: the second
      removal is harmless and a later toast is unaffected. */
  method DismissThenTimer() returns (remaining: seq<ToastMessage>, firstId: string, secondId: string)
    ensures |remaining| == 1 && remaining[0].id == secondId && firstId != secondId
  {
    var bus := new Bus();
    var s := bus.Subscribe();
    assert bus.listeners == [s];
    var t1 := bus.ShowToast(Info, "First", None, Millis(500));
    assert bus.listeners[0] == s;
    assert s.timers == [Timer(t1.id, 500)];
    var t2 := bus.ShowToast(Warning, "Second", Some("kept"), Forever);
    assert bus.listeners[0] == s;
    assert s.timers == [Timer(t1.id, 500)];
    assert s.toasts == [t1, t2];
    DistinctCountersDistinctIds(0, 1);
    s.RemoveToast(t1.id);
    s.FireTimer(0);
    remaining, firstId, secondId := s.toasts, t1.id, t2.id;
  }

  /** A toast posted with no listener is dropped: a listener that subscribes later
      starts empty, and the counter has still moved on. */
  method PostWithoutListeners() returns (late: seq<ToastMessage>, counter: nat)
    ensures late == [] && counter == 1
  {
    var bus := new Bus();
    var t := bus.ShowToast(Error, "Lost", None, Unset);
    var s := bus.Subscribe();
    late, counter := s.toasts, bus.nextId;
  }
}
