/** EventManagerDynamic: the legacy event manager's listeners, kept in a map
    from priority to the listeners of that priority in registration order,
    and callEvent, which walks the priorities from LOWEST to MONITOR and
    runs each inline listener, carrying the event's cancel flag along. */
module EventManager {

  /** PacketEventPriority's values: LOWEST 0, LOW 1, NORMAL 2, HIGH 3,
      HIGHEST 4 and MONITOR 5. */
  const LOWEST: int := 0
  const MONITOR: int := 5
  type Priority = p: int | LOWEST <= p <= MONITOR

  /** PacketListenerThreadMode: on Netty's thread, or on the worker pool. */
  datatype ThreadMode = Netty | PacketEvents

  /** A PacketListenerDynamic: its identity, its priority and its thread
      mode. Two listeners are equal when they are the same listener. */
  datatype Listener = Listener(id: nat, priority: Priority, threadMode: ThreadMode)

  type ListenerMap = map<Priority, seq<Listener>>

  /** The list stored under `p`, an absent list read as empty. */
  function Lookup(m: ListenerMap, p: Priority): seq<Listener>
  {
    if p in m then m[p] else []
  }

  /** Every listener sits in the list of its own priority. */
  ghost predicate Filed(m: ListenerMap)
  {
    forall p, l :: p in m && l in m[p] ==> l.priority == p
  }

  /** The routing of callEvent: a listener goes to the worker pool exactly
      when its thread mode is PACKETEVENTS and the pool is not shut down;
      every other listener runs inline. */
  predicate RunsInline(l: Listener, shutdown: bool)
  {
    !(l.threadMode == PacketEvents && !shutdown)
  }

  /** The listeners of `ls` that run inline, in their order in `ls`. */
  function InlineOf(ls: seq<Listener>, shutdown: bool): (r: seq<Listener>)
    ensures |r| <= |ls|
    ensures forall l :: l in r <==> l in ls && RunsInline(l, shutdown)
  {
    if |ls| == 0 then []
    else
      var rest := InlineOf(ls[..|ls| - 1], shutdown);
      var l := ls[|ls| - 1];
      if RunsInline(l, shutdown) then rest + [l] else rest
  }

  /** The listeners of `ls` routed to the worker pool, in their order. */
  function PooledOf(ls: seq<Listener>, shutdown: bool): (r: seq<Listener>)
    ensures |r| <= |ls|
    ensures forall l :: l in r <==> l in ls && !RunsInline(l, shutdown)
  {
    if |ls| == 0 then []
    else
      var rest := PooledOf(ls[..|ls| - 1], shutdown);
      var l := ls[|ls| - 1];
      if RunsInline(l, shutdown) then rest else rest + [l]
  }

  /** Routing splits each list: every listener goes one way, once. */
  lemma {:induction false} RoutingSplits(ls: seq<Listener>, shutdown: bool)
    ensures multiset(InlineOf(ls, shutdown)) + multiset(PooledOf(ls, shutdown)) == multiset(ls)
  {
    if |ls| > 0 {
      RoutingSplits(ls[..|ls| - 1], shutdown);
      assert ls == ls[..|ls| - 1] + [ls[|ls| - 1]];
    }
  }

  /** The inline listeners of the priorities below `n`, priority by
      priority from LOWEST, each list in its own order. */
  function ScheduleUpTo(m: ListenerMap, shutdown: bool, n: int): seq<Listener>
    requires LOWEST <= n <= MONITOR + 1
    decreases n
  {
    if n == LOWEST then []
    else ScheduleUpTo(m, shutdown, n - 1) + InlineOf(Lookup(m, n - 1), shutdown)
  }

  /** The listeners handed to the worker pool, in the same walk. */
  function PooledUpTo(m: ListenerMap, shutdown: bool, n: int): seq<Listener>
    requires LOWEST <= n <= MONITOR + 1
    decreases n
  {
    if n == LOWEST then []
    else PooledUpTo(m, shutdown, n - 1) + PooledOf(Lookup(m, n - 1), shutdown)
  }

  /** maxReachedEventPriority after the priorities below `n`: the highest
      one with a list in the map, empty or not; LOWEST when there is none. */
  function MaxUpTo(m: ListenerMap, n: int): Priority
    requires LOWEST <= n <= MONITOR + 1
    decreases n
  {
    if n == LOWEST then LOWEST
    else if n - 1 in m then n - 1
    else MaxUpTo(m, n - 1)
  }

  /** The cancel flag after the listeners `ls` ran in order from `entry`,
      each leaving `effect(listener, flag before it)`. */
  function Fold(effect: (Listener, bool) -> bool, entry: bool, ls: seq<Listener>): bool
  {
    if |ls| == 0 then entry
    else effect(ls[|ls| - 1], Fold(effect, entry, ls[..|ls| - 1]))
  }

  /** The listeners of `ls` with priority `p`, in their order. */
  function OfPriority(ls: seq<Listener>, p: Priority): seq<Listener>
  {
    if |ls| == 0 then []
    else OfPriority(ls[..|ls| - 1], p) + (if ls[|ls| - 1].priority == p then [ls[|ls| - 1]] else [])
  }

  /** registerListener on the map: the listener goes to the end of its
      priority's list, which is created when absent. */
  function Register(m: ListenerMap, l: Listener): ListenerMap
  {
    m[l.priority := Lookup(m, l.priority) + [l]]
  }

  /** The map after registering `ls` one by one. */
  function RegisterAll(m: ListenerMap, ls: seq<Listener>): ListenerMap
  {
    if |ls| == 0 then m else Register(RegisterAll(m, ls[..|ls| - 1]), ls[|ls| - 1])
  }

  /** ArrayList.remove(Object): the first occurrence goes, if there is one. */
  function RemoveFirst(ls: seq<Listener>, l: Listener): seq<Listener>
  {
    if |ls| == 0 then []
    else if ls[0] == l then ls[1..]
    else [ls[0]] + RemoveFirst(ls[1..], l)
  }

  /** unregisterListener on the map: nothing when the priority has no list,
      else one occurrence leaves that list. */
  function Unregister(m: ListenerMap, l: Listener): ListenerMap
  {
    if l.priority in m then m[l.priority := RemoveFirst(m[l.priority], l)] else m
  }

  function UnregisterAll(m: ListenerMap, ls: seq<Listener>): ListenerMap
  {
    if |ls| == 0 then m else Unregister(UnregisterAll(m, ls[..|ls| - 1]), ls[|ls| - 1])
  }

  /** The event handed to callEvent: a CancellableEvent or not, and the
      cancel flag of a cancellable one. */
  class Event {
    const cancellable: bool
    var cancelled: bool

    constructor (cancellable: bool, cancelled: bool)
      ensures this.cancellable == cancellable && this.cancelled == cancelled
    {
      this.cancellable := cancellable;
      this.cancelled := cancelled;
    }
  }

  class EventManagerDynamic {
    var listeners: ListenerMap

    constructor ()
      ensures listeners == map[]
    {
      listeners := map[];
    }

    ghost predicate Valid()
      reads this
    {
      Filed(listeners)
    }

    /** registerListener: the listener is appended to its own priority's
        list, every other priority keeps its list. */
    method RegisterListener(l: Listener)
      modifies this
      ensures listeners == Register(old(listeners), l)
      ensures old(Valid()) ==> Valid()
    {
      var list := if l.priority in listeners then listeners[l.priority] else [];
      listeners := listeners[l.priority := list + [l]];
    }

    /** registerListeners: registerListener on each, in order. */
    method RegisterListeners(ls: seq<Listener>)
      modifies this
      ensures listeners == RegisterAll(old(listeners), ls)
      ensures old(Valid()) ==> Valid()
    {
      for i := 0 to |ls|
        invariant listeners == RegisterAll(old(listeners), ls[..i])
        invariant old(Valid()) ==> Valid()
      {
        assert ls[..i + 1][..i] == ls[..i];
        RegisterListener(ls[i]);
      }
      assert ls[..|ls|] == ls;
    }

    /** unregisterListener: one occurrence leaves the list of the
        listener's priority; nothing happens when that list is absent. */
    method UnregisterListener(l: Listener)
      modifies this
      ensures listeners == Unregister(old(listeners), l)
      ensures old(Valid()) ==> Valid()
    {
      if l.priority !in listeners {
        return;
      }
      RemoveFirstSubset(listeners[l.priority], l);
      listeners := listeners[l.priority := RemoveFirst(listeners[l.priority], l)];
    }

    method UnregisterListeners(ls: seq<Listener>)
      modifies this
      ensures listeners == UnregisterAll(old(listeners), ls)
      ensures old(Valid()) ==> Valid()
    {
      for i := 0 to |ls|
        invariant listeners == UnregisterAll(old(listeners), ls[..i])
        invariant old(Valid()) ==> Valid()
      {
        assert ls[..i + 1][..i] == ls[..i];
        UnregisterListener(ls[i]);
      }
      assert ls[..|ls|] == ls;
    }

    /** unregisterAllListeners: the map is emptied. */
    method UnregisterAllListeners()
      modifies this
      ensures listeners == map[]
    {
      listeners := map[];
    }

    /** callEvent, its inline path: `ran` is the listeners invoked, in
        order, `pooled` those handed to the worker pool (not run here), and
        `maxReached` the priority given to the legacy manager. Each inline
        listener of a cancellable event leaves `effect(listener, flag)`,
        and the flag set at the end is the one the last of them left. */
    method CallEvent(event: Event, effect: (Listener, bool) -> bool, shutdown: bool)
      returns (ran: seq<Listener>, pooled: seq<Listener>, maxReached: Priority)
      modifies event
      ensures ran == ScheduleUpTo(listeners, shutdown, MONITOR + 1)
      ensures pooled == PooledUpTo(listeners, shutdown, MONITOR + 1)
      ensures maxReached == MaxUpTo(listeners, MONITOR + 1)
      ensures event.cancellable ==> event.cancelled == Fold(effect, old(event.cancelled), ran)
      ensures !event.cancellable ==> event.cancelled == old(event.cancelled)
    {
      var isCancelled := false;
      if event.cancellable {
        isCancelled := event.cancelled;
      }
      maxReached := LOWEST;
      ran, pooled := [], [];
      for i := LOWEST to MONITOR + 1
        invariant ran == ScheduleUpTo(listeners, shutdown, i)
        invariant pooled == PooledUpTo(listeners, shutdown, i)
        invariant maxReached == MaxUpTo(listeners, i)
        invariant event.cancellable ==> isCancelled == event.cancelled == Fold(effect, old(event.cancelled), ran)
        invariant !event.cancellable ==> event.cancelled == old(event.cancelled)
      {
        if i in listeners {
          maxReached := i;
          var nettyThreadListeners, packetEventsThreadListeners := Route(listeners[i], shutdown);
          isCancelled, ran := RunInline(event, nettyThreadListeners, effect, isCancelled, ran, old(event.cancelled));
          pooled := pooled + packetEventsThreadListeners;
        }
      }
      if event.cancellable {
        event.cancelled := isCancelled;
      }
    }
  }

  /** The split of one priority's list into the listeners run on Netty's
      thread and those handed to the worker pool. */
  method Route(cached: seq<Listener>, shutdown: bool) returns (netty: seq<Listener>, pool: seq<Listener>)
    ensures netty == InlineOf(cached, shutdown) && pool == PooledOf(cached, shutdown)
  {
    netty, pool := [], [];
    for j := 0 to |cached|
      invariant netty == InlineOf(cached[..j], shutdown) && pool == PooledOf(cached[..j], shutdown)
    {
      assert cached[..j + 1][..j] == cached[..j];
      var listener := cached[j];
      if listener.threadMode == PacketEvents && !shutdown {
        pool := pool + [listener];
      } else {
        netty := netty + [listener];
      }
    }
    assert cached[..|cached|] == cached;
  }

  /** The inline loop: each listener runs, and the running flag of a
      cancellable event is read back from it afterwards. */
  method RunInline(event: Event, listeners: seq<Listener>, effect: (Listener, bool) -> bool,
                   isCancelled: bool, ranBefore: seq<Listener>, ghost entry: bool)
    returns (flag: bool, ran: seq<Listener>)
    requires event.cancellable ==> isCancelled == event.cancelled == Fold(effect, entry, ranBefore)
    modifies event
    ensures ran == ranBefore + listeners
    ensures event.cancellable ==> flag == event.cancelled == Fold(effect, entry, ran)
    ensures !event.cancellable ==> event.cancelled == old(event.cancelled)
  {
    flag, ran := isCancelled, ranBefore;
    for k := 0 to |listeners|
      invariant ran == ranBefore + listeners[..k]
      invariant event.cancellable ==> flag == event.cancelled == Fold(effect, entry, ran)
      invariant !event.cancellable ==> event.cancelled == old(event.cancelled)
    {
      var listener := listeners[k];
      if event.cancellable {
        event.cancelled := effect(listener, event.cancelled);
      }
      ran := ran + [listener];
      assert ran[..|ran| - 1] == ranBefore + listeners[..k];
      if event.cancellable {
        flag := event.cancelled;
      }
    }
    assert listeners[..|listeners|] == listeners;
  }

  lemma {:induction false} RemoveFirstSubset(ls: seq<Listener>, l: Listener)
    ensures forall x :: x in RemoveFirst(ls, l) ==> x in ls
  {
    if |ls| > 0 && ls[0] != l {
      RemoveFirstSubset(ls[1..], l);
    }
  }

  /** The position of the first occurrence of `l`. */
  function IndexOf(ls: seq<Listener>, l: Listener): (i: nat)
    requires l in ls
    ensures i < |ls| && ls[i] == l && l !in ls[..i]
  {
    if ls[0] == l then 0
    else
      var i := IndexOf(ls[1..], l);
      assert ls[..i + 1] == [ls[0]] + ls[1..][..i];
      i + 1
  }

  /** remove(listener) takes out exactly one occurrence of the listener. */
  lemma {:induction false} RemoveFirstCounts(ls: seq<Listener>, l: Listener)
    ensures multiset(RemoveFirst(ls, l)) == multiset(ls) - multiset{l}
  {
    if |ls| > 0 {
      assert ls == [ls[0]] + ls[1..];
      if ls[0] != l {
        RemoveFirstCounts(ls[1..], l);
      }
    }
  }

  /** The occurrence taken out is the first, and the rest keep their order;
      a listener not in the list leaves it as it is. */
  lemma {:induction false} RemoveFirstKeepsOrder(ls: seq<Listener>, l: Listener)
    ensures l in ls ==> RemoveFirst(ls, l) == ls[..IndexOf(ls, l)] + ls[IndexOf(ls, l) + 1..]
    ensures l !in ls ==> RemoveFirst(ls, l) == ls
  {
    if |ls| > 0 {
      assert ls == [ls[0]] + ls[1..];
      if ls[0] != l {
        RemoveFirstKeepsOrder(ls[1..], l);
        if l in ls {
          var i := IndexOf(ls[1..], l);
          assert ls[..i + 1] == [ls[0]] + ls[1..][..i];
          assert ls[i + 2..] == ls[1..][i + 1..];
        }
      }
    }
  }

  /** registerListeners: each priority's list gains that priority's
      listeners of the batch, at its end and in batch order. */
  lemma {:induction false} RegisterAllAppends(m: ListenerMap, ls: seq<Listener>, p: Priority)
    ensures Lookup(RegisterAll(m, ls), p) == Lookup(m, p) + OfPriority(ls, p)
    ensures p in RegisterAll(m, ls) <==> p in m || OfPriority(ls, p) != []
  {
    if |ls| > 0 {
      RegisterAllAppends(m, ls[..|ls| - 1], p);
    }
  }

  /** A batch unregistration only shortens lists: the same priorities
      have lists, and no listener is added. */
  lemma {:induction false} UnregisterAllShrinks(m: ListenerMap, ls: seq<Listener>, p: Priority)
    ensures p in UnregisterAll(m, ls) <==> p in m
    ensures forall x :: x in Lookup(UnregisterAll(m, ls), p) ==> x in Lookup(m, p)
  {
    if |ls| > 0 {
      UnregisterAllShrinks(m, ls[..|ls| - 1], p);
      var before := UnregisterAll(m, ls[..|ls| - 1]);
      if p in before {
        RemoveFirstSubset(before[p], ls[|ls| - 1]);
      }
    }
  }

  /** Lower priorities come first. */
  ghost predicate ByPriority(s: seq<Listener>)
  {
    forall i, j :: 0 <= i < j < |s| ==> s[i].priority <= s[j].priority
  }

  lemma ByPriorityConcat(a: seq<Listener>, b: seq<Listener>, p: Priority)
    requires ByPriority(a) && forall l :: l in a ==> l.priority <= p
    requires forall l :: l in b ==> l.priority == p
    ensures ByPriority(a + b)
  {
    forall i, j | 0 <= i < j < |a + b|
      ensures (a + b)[i].priority <= (a + b)[j].priority
    {
      if j >= |a| {
        assert (a + b)[j] in b;
        if i < |a| {
          assert (a + b)[i] in a;
        } else {
          assert (a + b)[i] in b;
        }
      }
    }
  }

  /** The walk's order: every inline listener of the priorities below `n`
      runs, lower priorities first. */
  lemma {:induction false} ScheduleOrder(m: ListenerMap, shutdown: bool, n: int)
    requires LOWEST <= n <= MONITOR + 1
    requires Filed(m)
    ensures ByPriority(ScheduleUpTo(m, shutdown, n))
    ensures forall l :: l in ScheduleUpTo(m, shutdown, n) ==> l.priority < n
  {
    if n > LOWEST {
      ScheduleOrder(m, shutdown, n - 1);
      var last := InlineOf(Lookup(m, n - 1), shutdown);
      assert forall l :: l in last ==> l.priority == n - 1;
      ByPriorityConcat(ScheduleUpTo(m, shutdown, n - 1), last, n - 1);
    }
  }

  /** Within one priority, the listeners run in the order of its list
      (registration order), the pooled ones left out. */
  lemma {:induction false} ScheduleKeepsListOrder(m: ListenerMap, shutdown: bool, n: int, p: Priority)
    requires LOWEST <= n <= MONITOR + 1
    requires Filed(m)
    ensures OfPriority(ScheduleUpTo(m, shutdown, n), p) == (if p < n then InlineOf(Lookup(m, p), shutdown) else [])
  {
    if n > LOWEST {
      ScheduleKeepsListOrder(m, shutdown, n - 1, p);
      ScheduleOrder(m, shutdown, n - 1);
      var before := ScheduleUpTo(m, shutdown, n - 1);
      var last := InlineOf(Lookup(m, n - 1), shutdown);
      assert forall l :: l in last ==> l.priority == n - 1;
      OfPriorityConcat(before, last, p);
      if p == n - 1 {
        OfPriorityNone(before, p);
        OfPriorityAll(last, p);
      } else {
        OfPriorityNone(last, p);
      }
    }
  }

  lemma {:induction false} OfPriorityConcat(a: seq<Listener>, b: seq<Listener>, p: Priority)
    ensures OfPriority(a + b, p) == OfPriority(a, p) + OfPriority(b, p)
  {
    if |b| > 0 {
      assert (a + b)[..|a + b| - 1] == a + b[..|b| - 1];
      OfPriorityConcat(a, b[..|b| - 1], p);
    } else {
      assert a + b == a;
    }
  }

  lemma {:induction false} OfPriorityNone(ls: seq<Listener>, p: Priority)
    requires forall l :: l in ls ==> l.priority != p
    ensures OfPriority(ls, p) == []
  {
    if |ls| > 0 {
      OfPriorityNone(ls[..|ls| - 1], p);
    }
  }

  lemma {:induction false} OfPriorityAll(ls: seq<Listener>, p: Priority)
    requires forall l :: l in ls ==> l.priority == p
    ensures OfPriority(ls, p) == ls
  {
    if |ls| > 0 {
      OfPriorityAll(ls[..|ls| - 1], p);
    }
  }

  /** After unregisterAllListeners, callEvent runs and pools no listener
      and reports LOWEST. */
  lemma {:induction false} EmptyMapRunsNothing(shutdown: bool, n: int)
    requires LOWEST <= n <= MONITOR + 1
    ensures ScheduleUpTo(map[], shutdown, n) == []
    ensures PooledUpTo(map[], shutdown, n) == []
    ensures MaxUpTo(map[], n) == LOWEST
  {
    if n > LOWEST {
      EmptyMapRunsNothing(shutdown, n - 1);
    }
  }

  /** The priority given to the legacy manager is the highest priority
      with a list in the map, an emptied list included, or LOWEST when
      the map has none. */
  lemma {:induction false} MaxIsHighestKey(m: ListenerMap, n: int)
    requires LOWEST <= n <= MONITOR + 1
    ensures forall p: Priority :: p in m && p < n ==> p <= MaxUpTo(m, n)
    ensures MaxUpTo(m, n) in m || (MaxUpTo(m, n) == LOWEST && forall p: Priority :: p < n ==> p !in m)
  {
    if n > LOWEST {
      MaxIsHighestKey(m, n - 1);
    }
  }
}
