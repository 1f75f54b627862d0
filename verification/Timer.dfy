/** The timer callback table (src/timer.c): what it does, in place and as values, and how often
    a callback is called. */
module Timers {
  import opened Screen
  import opened Machine
  import opened Queues
  import opened Preservation
  import opened Runs

  const TIMERS_MAX := 32

  // Functions are numbers here; 0 is the null pointer.
  const NO_CALLBACK := 0

  datatype Timer = Timer(callback: int, interval: int, repeat: int)

  const FREE_TIMER := Timer(NO_CALLBACK, 0, 0)

  datatype Table = Table(ticks: int, timers: seq<Timer>, free: seq<int>)

  // ---- The table as a value ----

  function Registered(t: Table, f: int, interval: int, repeat: int): (r: (Table, int))
    ensures |r.0.timers| == |t.timers|
  {
    if f == NO_CALLBACK || t.free == [] then (t, -1)
    else
      var id := t.free[0];
      var t := t.(free := t.free[1..]);
      if 0 <= id < |t.timers| then (t.(timers := t.timers[id := Timer(f, interval, repeat)]), id) else (t, id)
  }

  function Unregistered(t: Table, id: int): (r: (Table, int))
    requires |t.timers| == TIMERS_MAX
    ensures |r.0.timers| == TIMERS_MAX
  {
    if id < 0 || id >= TIMERS_MAX then (t, -1)
    else
      (t.(timers := t.timers[id := FREE_TIMER], free := Enqueue(t.free, id)),
       if |t.free| == QUEUE_SIZE then -1 else 0)
  }

  predicate Due(m: Timer, ticks: int): (due: bool)
    requires m.callback != NO_CALLBACK ==> m.interval != 0
    ensures due ==> m.callback != NO_CALLBACK
  {
    m.callback != NO_CALLBACK && ticks % m.interval == 0
  }

  function Fired(m: Timer): Timer {
    m.(repeat := if m.repeat > 0 then m.repeat - 1 else m.repeat)
  }

  // A slot after a tick: the last of a limited number of calls frees it.
  function Served(m: Timer, ticks: int): (m': Timer)
    requires m.callback != NO_CALLBACK ==> m.interval != 0
    ensures m'.callback == NO_CALLBACK || (m'.callback == m.callback && m'.interval == m.interval)
  {
    if !Due(m, ticks) then m else if Fired(m).repeat == 0 then FREE_TIMER else Fired(m)
  }

  predicate IntervalsOk(t: Table) {
    && |t.timers| == TIMERS_MAX
    && forall j :: 0 <= j < TIMERS_MAX && t.timers[j].callback != NO_CALLBACK ==> t.timers[j].interval != 0
  }

  // The rest of the table, from slot i on, at one tick: the table after it and the callbacks called.
  function ServeFrom(t: Table, i: nat): (r: (Table, seq<int>))
    requires IntervalsOk(t) && i <= TIMERS_MAX
    ensures IntervalsOk(r.0)
    decreases |t.timers| - i
  {
    if i == TIMERS_MAX then (t, [])
    else
      var (t', called) := Serve(t, i);
      var (t'', rest) := ServeFrom(t', i + 1);
      (t'', called + rest)
  }

  // One slot at one tick.
  function Serve(t: Table, i: nat): (r: (Table, seq<int>))
    requires |t.timers| == TIMERS_MAX && i < TIMERS_MAX
    requires t.timers[i].callback != NO_CALLBACK ==> t.timers[i].interval != 0
    ensures r.0.timers == t.timers[i := Served(t.timers[i], t.ticks)] && r.0.ticks == t.ticks
  {
    var m := t.timers[i];
    if !Due(m, t.ticks) then (t, [])
    else
      var t := t.(timers := t.timers[i := Fired(m)]);
      (if Fired(m).repeat == 0 then Unregistered(t, i).0 else t, [m.callback])
  }

  function Irq(t: Table): (r: (Table, seq<int>))
    requires IntervalsOk(t)
    ensures IntervalsOk(r.0)
  {
    ServeFrom(t.(ticks := t.ticks + 1), 0)
  }

  // ---- The allocator ----

  ghost function Unused(timers: seq<Timer>): set<int> {
    set i | 0 <= i < |timers| && timers[i].callback == NO_CALLBACK
  }

  // The allocator lists exactly the unused slots, each once.
  ghost predicate TimersOk(t: Table) {
    IntervalsOk(t) && multiset(t.free) == multiset(Unused(t.timers))
  }

  lemma RegisterKeeps(t: Table, f: int, interval: int, repeat: int)
    requires TimersOk(t) && interval != 0
    ensures TimersOk(Registered(t, f, interval, repeat).0)
    ensures f != NO_CALLBACK && t.free != [] ==> var (t', id) := Registered(t, f, interval, repeat);
      0 <= id < TIMERS_MAX && t.timers[id].callback == NO_CALLBACK && t'.ticks == t.ticks &&
      t'.timers == t.timers[id := Timer(f, interval, repeat)]
  {
    if f != NO_CALLBACK && t.free != [] {
      var id := t.free[0];
      assert id in multiset(t.free);
      assert t.free == [id] + t.free[1..];
      var t' := Registered(t, f, interval, repeat).0;
      assert Unused(t'.timers) == Unused(t.timers) - {id};
      BagDrop(Unused(t.timers), id);
    }
  }

  // Unregistering keeps the allocator exact if and only if the id is not one of the unused ones,
  // or all of them are unused and the allocator has no room for a second copy.
  lemma UnregisterKeeps(t: Table, id: int)
    requires TimersOk(t)
    ensures TimersOk(Unregistered(t, id).0) <==>
      (0 <= id < TIMERS_MAX ==> t.timers[id].callback != NO_CALLBACK || |t.free| == QUEUE_SIZE)
  {
    if 0 <= id < TIMERS_MAX {
      var t' := Unregistered(t, id).0;
      if t.timers[id].callback != NO_CALLBACK {
        UnusedFit(t, id);
        assert Unused(t'.timers) == Unused(t.timers) + {id};
        BagAdd(Unused(t.timers), id);
      } else {
        assert Unused(t'.timers) == Unused(t.timers);
        assert multiset(t.free)[id] == 1;
        assert |t.free| != QUEUE_SIZE ==> multiset(t'.free)[id] == 2;
      }
    }
  }

  // One callback in slot 0, and a caller that unregisters id 5, which nobody registered.
  lemma UnusedIdBreaks()
    ensures var t := Table(0, seq(TIMERS_MAX, i => if i == 0 then Timer(1, 1, -1) else FREE_TIMER),
                           seq(TIMERS_MAX - 1, i => i + 1));
      TimersOk(t) && Unregistered(t, 5).1 == 0 && !TimersOk(Unregistered(t, 5).0)
  {
    var t := Table(0, seq(TIMERS_MAX, i => if i == 0 then Timer(1, 1, -1) else FREE_TIMER),
                   seq(TIMERS_MAX - 1, i => i + 1));
    FullAllocator([0] + t.free, Unused(t.timers) + {0});
    BagAdd(Unused(t.timers), 0);
    assert multiset(t.free) == multiset([0] + t.free) - multiset{0};
    UnregisterKeeps(t, 5);
  }

  // Unregistering answers 0 exactly when the identifier is in range and the allocator has room for it.
  lemma UnregisterAnswers(t: Table, id: int)
    requires |t.timers| == TIMERS_MAX
    ensures var (t', rc) := Unregistered(t, id);
      && (rc == 0 <==> 0 <= id < TIMERS_MAX && |t.free| != QUEUE_SIZE)
      && (rc == 0 || rc == -1)
      && (!(0 <= id < TIMERS_MAX) ==> t' == t)
  {
  }

  // What registering does, unregistering the identifier it answered undoes; the identifier then waits
  // behind all other free ones.
  lemma RegisterUnregister(t: Table, f: int, interval: int, repeat: int)
    requires TimersOk(t) && f != NO_CALLBACK && t.free != [] && interval != 0
    ensures var (t1, id) := Registered(t, f, interval, repeat);
      0 <= id < TIMERS_MAX && id == t.free[0] && |t1.timers| == TIMERS_MAX &&
      Unregistered(t1, id) == (t.(timers := t.timers[id := FREE_TIMER], free := t.free[1..] + [id]), 0)
  {
    RegisterKeeps(t, f, interval, repeat);
    var (t1, id) := Registered(t, f, interval, repeat);
    UnusedFit(t1, id);
    assert t1.timers[id := FREE_TIMER] == t.timers[id := FREE_TIMER];
  }

  lemma UnusedFit(t: Table, id: int)
    requires TimersOk(t) && 0 <= id < TIMERS_MAX && t.timers[id].callback != NO_CALLBACK
    ensures |t.free| < TIMERS_MAX
  {
    var unused := Unused(t.timers);
    IdsBelow(unused + {id}, TIMERS_MAX);
    assert |multiset(t.free)| == |unused|;
    assert |unused + {id}| == |unused| + 1;
  }

  lemma ServeKeeps(t: Table, i: nat)
    requires TimersOk(t) && i < TIMERS_MAX
    ensures TimersOk(Serve(t, i).0)
  {
    hide Due;
    var m := t.timers[i];
    if Due(m, t.ticks) {
      var t' := t.(timers := t.timers[i := Fired(m)]);
      assert Unused(t'.timers) == Unused(t.timers);
      UnregisterKeeps(t', i);
    }
  }

  lemma {:induction false} ServeFromKeeps(t: Table, i: nat)
    requires TimersOk(t) && i <= TIMERS_MAX
    ensures TimersOk(ServeFrom(t, i).0) && ServeFrom(t, i).0.ticks == t.ticks
    decreases |t.timers| - i
  {
    if i < TIMERS_MAX {
      ServeKeeps(t, i);
      hide Due, Serve, Unused;
      ServeFromKeeps(Serve(t, i).0, i + 1);
    }
  }

  // Every slot is served on its own.
  lemma {:induction false} ServedOnce(t: Table, i: nat, j: nat)
    requires IntervalsOk(t) && i <= TIMERS_MAX && j < TIMERS_MAX
    ensures ServeFrom(t, i).0.timers[j] == if j < i then t.timers[j] else Served(t.timers[j], t.ticks)
    decreases |t.timers| - i
  {
    hide Due, Fired;
    if i < TIMERS_MAX { ServedOnce(Serve(t, i).0, i + 1, j); }
  }

  // ---- How often one callback is called ----

  ghost predicate OnlyAt(timers: seq<Timer>, f: int, id: int) {
    forall j :: 0 <= j < |timers| && j != id ==> timers[j].callback != f
  }

  lemma {:induction false} CalledCount(t: Table, i: nat, f: int, id: int)
    requires TimersOk(t) && i <= TIMERS_MAX && f != NO_CALLBACK && 0 <= id < TIMERS_MAX && OnlyAt(t.timers, f, id)
    ensures multiset(ServeFrom(t, i).1)[f] ==
      if id >= i && t.timers[id].callback == f && Due(t.timers[id], t.ticks) then 1 else 0
    decreases |t.timers| - i
  {
    hide Due;
    if i < TIMERS_MAX {
      var (t1, called) := Serve(t, i);
      ServeKeeps(t, i);
      ServeOnly(t, i, f, id);
      assert id > i ==> t1.timers[id] == t.timers[id];
      hide Serve, Unused, OnlyAt;
      CalledCount(t1, i + 1, f, id);
      var rest := ServeFrom(t1, i + 1).1;
      assert ServeFrom(t, i).1 == called + rest;
      hide ServeFrom;
      assert multiset(called + rest) == multiset(called) + multiset(rest);
    }
  }

  lemma ServeOnly(t: Table, i: nat, f: int, id: int)
    requires IntervalsOk(t) && i < TIMERS_MAX && f != NO_CALLBACK && OnlyAt(t.timers, f, id)
    ensures var (t1, called) := Serve(t, i);
      && t1.ticks == t.ticks && OnlyAt(t1.timers, f, id)
      && multiset(called)[f] == if i == id && t.timers[i].callback == f && Due(t.timers[i], t.ticks) then 1 else 0
  {
    hide Due;
  }

  // ---- Runs of the table ----

  datatype TimerEvent = Interrupt | Register(f: int, interval: int, repeat: int) | Unregister(id: int)

  function Next(t: Table, ev: TimerEvent): (r: (Table, seq<int>))
    requires IntervalsOk(t)
    ensures |r.0.timers| == TIMERS_MAX
  {
    match ev
    case Interrupt => Irq(t)
    case Register(f, interval, repeat) => (Registered(t, f, interval, repeat).0, [])
    case Unregister(id) => (Unregistered(t, id).0, [])
  }

  // Others register other callbacks, with an interval the C code can divide by, and unregister
  // only what is registered and is not f.
  ghost predicate Fair(t: Table, ev: TimerEvent, f: int)
    requires |t.timers| == TIMERS_MAX
  {
    && (ev.Register? ==> ev.f != f && ev.interval != 0)
    && (ev.Unregister? && 0 <= ev.id < TIMERS_MAX ==>
          t.timers[ev.id].callback != NO_CALLBACK && t.timers[ev.id].callback != f)
  }

  lemma NextKeeps(t: Table, ev: TimerEvent, f: int)
    requires TimersOk(t) && Fair(t, ev, f)
    ensures TimersOk(Next(t, ev).0)
  {
    hide Due;
    match ev
    case Interrupt => ServeFromKeeps(t.(ticks := t.ticks + 1), 0);
    case Register(g, interval, repeat) => RegisterKeeps(t, g, interval, repeat);
    case Unregister(id) => UnregisterKeeps(t, id);
  }

  ghost predicate FairRun(t: Table, es: seq<TimerEvent>, f: int)
    requires TimersOk(t)
    decreases |es|
  {
    es != [] ==> Fair(t, es[0], f) && (NextKeeps(t, es[0], f); FairRun(Next(t, es[0]).0, es[1..], f))
  }

  ghost function TableAfter(t: Table, es: seq<TimerEvent>, f: int): (r: Table)
    requires TimersOk(t) && FairRun(t, es, f)
    ensures TimersOk(r)
    decreases |es|
  {
    if es == [] then t
    else
      NextKeeps(t, es[0], f);
      TableAfter(Next(t, es[0]).0, es[1..], f)
  }

  // How often f is called in the run.
  ghost function CallsOf(t: Table, es: seq<TimerEvent>, f: int): nat
    requires TimersOk(t) && FairRun(t, es, f)
    decreases |es|
  {
    if es == [] then 0
    else
      NextKeeps(t, es[0], f);
      multiset(Next(t, es[0]).1)[f] + CallsOf(Next(t, es[0]).0, es[1..], f)
  }

  ghost function Interrupts(es: seq<TimerEvent>): nat
    decreases |es|
  {
    if es == [] then 0 else (if es[0].Interrupt? then 1 else 0) + Interrupts(es[1..])
  }

  lemma DivUnique(a: int, k: int, q: int, r: int)
    requires k > 0 && 0 <= r < k && a == q * k + r
    ensures a / k == q && a % k == r
  {
    var d := a / k - q;
    assert a == (a / k) * k + a % k;
    assert d * k == r - a % k;
    assert d >= 1 ==> d * k >= k;
    assert d <= -1 ==> d * k <= -k;
  }

  // Multiples of k are where the quotient grows.
  lemma DivStep(n: int, k: int)
    requires k > 0
    ensures (n + 1) / k == n / k + (if (n + 1) % k == 0 then 1 else 0)
  {
    var q, r := n / k, n % k;
    assert n == q * k + r;
    if r + 1 < k {
      DivUnique(n + 1, k, q, r + 1);
    } else {
      assert n + 1 == (q + 1) * k;
      DivUnique(n + 1, k, q + 1, 0);
    }
  }

  // Where slot id stands after one more event, if it holds f with interval k.
  lemma SlotAfter(t: Table, ev: TimerEvent, f: int, k: int, repeat: int, id: int)
    requires TimersOk(t) && Fair(t, ev, f) && 0 <= id < TIMERS_MAX && k > 0 && f != NO_CALLBACK
    requires t.timers[id] == Timer(f, k, repeat) && OnlyAt(t.timers, f, id)
    ensures var (t', called) := Next(t, ev);
      && OnlyAt(t'.timers, f, id)
      && t'.ticks == t.ticks + (if ev.Interrupt? then 1 else 0)
      && if ev.Interrupt? && (t.ticks + 1) % k == 0 then
           multiset(called)[f] == 1 &&
           t'.timers[id] == (if Fired(t.timers[id]).repeat == 0 then FREE_TIMER else Fired(t.timers[id]))
         else
           multiset(called)[f] == 0 && t'.timers[id] == t.timers[id]
  {
    hide Unused, ServeFrom;
    match ev
    case Interrupt => IrqSlots(t, f, id);
    case Register(g, interval, r) => RegisterKeeps(t, g, interval, r);
    case Unregister(j) =>
  }

  lemma IrqServes(t: Table, j: nat)
    requires IntervalsOk(t) && j < TIMERS_MAX
    ensures Irq(t).0.timers[j] == Served(t.timers[j], t.ticks + 1)
  {
    ServedOnce(t.(ticks := t.ticks + 1), 0, j);
  }

  lemma IrqOnly(t: Table, f: int, id: int)
    requires IntervalsOk(t) && f != NO_CALLBACK && OnlyAt(t.timers, f, id)
    ensures OnlyAt(Irq(t).0.timers, f, id)
  {
    hide Irq, Served;
    forall j | 0 <= j < TIMERS_MAX && j != id ensures Irq(t).0.timers[j].callback != f {
      IrqServes(t, j);
    }
  }

  // One interrupt, seen from the one slot that may hold f.
  lemma IrqSlots(t: Table, f: int, id: int)
    requires TimersOk(t) && f != NO_CALLBACK && 0 <= id < TIMERS_MAX && OnlyAt(t.timers, f, id)
    ensures var (t', called) := Irq(t);
      && t'.ticks == t.ticks + 1 && OnlyAt(t'.timers, f, id)
      && t'.timers[id] == Served(t.timers[id], t.ticks + 1)
      && multiset(called)[f] == (if t.timers[id].callback == f && Due(t.timers[id], t.ticks + 1) then 1 else 0)
  {
    hide Unused, Due, Served, ServeFrom;
    var t1 := t.(ticks := t.ticks + 1);
    ServeFromKeeps(t1, 0);
    CalledCount(t1, 0, f, id);
    IrqServes(t, id);
    IrqOnly(t, f, id);
    hide OnlyAt;
  }

  lemma SlotGone(t: Table, ev: TimerEvent, f: int)
    requires TimersOk(t) && Fair(t, ev, f) && f != NO_CALLBACK && OnlyAt(t.timers, f, -1)
    ensures var (t', called) := Next(t, ev); OnlyAt(t'.timers, f, -1) && multiset(called)[f] == 0
  {
    hide Due;
    hide Unused;
    match ev
    case Interrupt => IrqSlots(t, f, 0);
    case Register(g, interval, r) => RegisterKeeps(t, g, interval, r);
    case Unregister(j) =>
  }

  lemma {:induction false} GoneForGood(t: Table, es: seq<TimerEvent>, f: int)
    requires TimersOk(t) && FairRun(t, es, f) && f != NO_CALLBACK && OnlyAt(t.timers, f, -1)
    ensures CallsOf(t, es, f) == 0 && OnlyAt(TableAfter(t, es, f).timers, f, -1)
    decreases |es|
  {
    hide OnlyAt, Next, Fair, Unused;
    if es != [] {
      NextKeeps(t, es[0], f);
      SlotGone(t, es[0], f);
      GoneForGood(Next(t, es[0]).0, es[1..], f);
    }
  }

  // Calls the registration still allows: repeat 0 is one call, a negative repeat no limit.
  function Capped(repeat: int, n: int): int {
    var limit := if repeat == 0 then 1 else repeat;
    if repeat < 0 || n < limit then n else limit
  }

  // The exact count: a callback with interval k is called at each multiple of k up to its repeat
  // count, and at the last call its slot goes back to the allocator.
  lemma {:induction false} FiringCount(t: Table, es: seq<TimerEvent>, f: int, k: int, repeat: int, id: int)
    requires TimersOk(t) && FairRun(t, es, f) && 0 <= id < TIMERS_MAX && k > 0 && f != NO_CALLBACK
    requires t.timers[id] == Timer(f, k, repeat) && OnlyAt(t.timers, f, id)
    ensures var n := (t.ticks + Interrupts(es)) / k - t.ticks / k;
      && n >= 0 && CallsOf(t, es, f) == Capped(repeat, n)
      && var t' := TableAfter(t, es, f);
         if repeat < 0 || n < (if repeat == 0 then 1 else repeat) then t'.timers[id].callback == f
         else OnlyAt(t'.timers, f, -1)
    decreases |es|
  {
    hide OnlyAt, Next, Fair, Unused;
    if es != [] {
      var t1, n := Next(t, es[0]).0, Interrupts(es[1..]);
      NextKeeps(t, es[0], f);
      SlotAfter(t, es[0], f, k, repeat, id);
      DivStep(t.ticks, k);
      if t1.timers[id] == FREE_TIMER {
        NoneLeft(t1, f, id);
        GoneForGood(t1, es[1..], f);
        QuotientGrows(t1.ticks, n, k);
      } else {
        FiringCount(t1, es[1..], f, k, t1.timers[id].repeat, id);
      }
      assert t1.ticks + n == t.ticks + Interrupts(es);
    }
  }

  lemma NoneLeft(t: Table, f: int, id: int)
    requires 0 <= id < |t.timers| && t.timers[id] == FREE_TIMER && f != NO_CALLBACK && OnlyAt(t.timers, f, id)
    ensures OnlyAt(t.timers, f, -1)
  {
  }

  lemma {:induction false} QuotientGrows(a: int, n: nat, k: int)
    requires k > 0
    ensures (a + n) / k >= a / k
  {
    if n > 0 {
      QuotientGrows(a, n - 1, k);
      DivStep(a + n - 1, k);
    }
  }

  // ---- The kernel's own callbacks ----

  const TTY_REFRESH := 1
  const SCHEDULER_TIMER := 2
  // The displays of include/test.h.
  const SPINNER := 3
  const CLOCK := 4
  const PROC_LIST := 5

  // As timer_init leaves it.
  function InitTable(): Table {
    Table(0, seq(TIMERS_MAX, _ => FREE_TIMER), seq(TIMERS_MAX, i => i))
  }

  function RegisterAll(t: Table, regs: seq<(int, int)>): (r: Table)
    ensures |r.timers| == |t.timers|
    decreases |regs|
  {
    if regs == [] then t else RegisterAll(Registered(t, regs[0].0, regs[0].1, -1).0, regs[1..])
  }

  // With slots n and up free, in order, the registrations take the next slots, in order.
  lemma {:induction false} RegisteredInOrder(t: Table, n: nat, regs: seq<(int, int)>)
    requires TimersOk(t) && n + |regs| <= TIMERS_MAX
    requires |t.free| == TIMERS_MAX - n && forall k :: 0 <= k < |t.free| ==> t.free[k] == n + k
    requires forall k :: 0 <= k < |regs| ==> regs[k].0 != NO_CALLBACK && regs[k].1 != 0
    ensures var r := RegisterAll(t, regs);
      && TimersOk(r) && r.ticks == t.ticks
      && forall j :: 0 <= j < TIMERS_MAX ==>
           r.timers[j] == if n <= j < n + |regs| then Timer(regs[j - n].0, regs[j - n].1, -1) else t.timers[j]
    decreases |regs|
  {
    hide Unused;
    if regs != [] {
      var t' := Registered(t, regs[0].0, regs[0].1, -1).0;
      RegisterKeeps(t, regs[0].0, regs[0].1, -1);
      assert t'.free == t.free[1..];
      hide TimersOk, Registered;
      RegisteredInOrder(t', n + 1, regs[1..]);
    }
  }

  // The registrations of tty_init, scheduler_init and test_init, in the order main makes them.
  function BootCalls(): seq<(int, int)> {
    [(TTY_REFRESH, REFRESH_INTERVAL), (SCHEDULER_TIMER, 1), (SPINNER, 10), (CLOCK, 25), (PROC_LIST, 10)]
  }

  function BootTable(): (t: Table)
    ensures TimersOk(t) && KernelSlots(t) && t.ticks == 0
  {
    BootTableOk();
    RegisterAll(InitTable(), BootCalls())
  }

  lemma BootTableOk()
    ensures var t := RegisterAll(InitTable(), BootCalls()); TimersOk(t) && KernelSlots(t) && t.ticks == 0
  {
    hide TimersOk, KernelSlots, RegisterAll;
    KernelsFirst(BootCalls());
  }

  // The kernel's two registrations come first, and nobody else registers its callbacks.
  ghost predicate KernelsCome(regs: seq<(int, int)>) {
    && 2 <= |regs| <= TIMERS_MAX
    && regs[0] == (TTY_REFRESH, REFRESH_INTERVAL) && regs[1] == (SCHEDULER_TIMER, 1)
    && (forall k :: 0 <= k < |regs| ==> regs[k].0 != NO_CALLBACK && regs[k].1 != 0)
    && (forall k :: 2 <= k < |regs| ==> regs[k].0 != TTY_REFRESH && regs[k].0 != SCHEDULER_TIMER)
  }

  lemma KernelsFirst(regs: seq<(int, int)>)
    requires KernelsCome(regs)
    ensures var t := RegisterAll(InitTable(), regs); TimersOk(t) && KernelSlots(t) && t.ticks == 0
  {
    FullTable(InitTable());
    RegisteredInOrder(InitTable(), 0, regs);
    hide TimersOk, RegisterAll;
  }

  // The terminal's callback every 50 ticks in slot 0, the scheduler's on every tick in slot 1.
  ghost predicate KernelSlots(t: Table) {
    && |t.timers| == TIMERS_MAX
    && t.timers[0] == Timer(TTY_REFRESH, REFRESH_INTERVAL, -1)
    && t.timers[1] == Timer(SCHEDULER_TIMER, 1, -1)
    && forall j :: 2 <= j < TIMERS_MAX ==>
         t.timers[j].callback != TTY_REFRESH && t.timers[j].callback != SCHEDULER_TIMER
  }

  function KernelCalls(ticks: int): seq<int> {
    (if ticks % REFRESH_INTERVAL == 0 then [TTY_REFRESH] else []) + [SCHEDULER_TIMER]
  }

  // Whatever else is registered, an interrupt calls these two first, no other time, and keeps them.
  lemma KernelCallbacks(t: Table)
    requires TimersOk(t) && KernelSlots(t)
    ensures var (t', called) := Irq(t); var own := KernelCalls(t.ticks + 1);
      && KernelSlots(t') && t'.ticks == t.ticks + 1
      && own <= called && TTY_REFRESH !in called[|own|..] && SCHEDULER_TIMER !in called[|own|..]
  {
    var t1 := t.(ticks := t.ticks + 1);
    ServeFromKeeps(t1, 0);
    KernelSlotsStay(t);
    FirstTwo(t1);
    var own, rest := KernelCalls(t1.ticks), ServeFrom(t1, 2).1;
    CalledCount(t1, 2, TTY_REFRESH, 0);
    CalledCount(t1, 2, SCHEDULER_TIMER, 1);
    hide ServeFrom;
    assert (own + rest)[|own|..] == rest;
    assert TTY_REFRESH !in multiset(rest) && SCHEDULER_TIMER !in multiset(rest);
  }

  // A callback without limit leaves the table as it is.
  lemma ServeEndless(t: Table, i: nat)
    requires IntervalsOk(t) && i < TIMERS_MAX && t.timers[i].callback != NO_CALLBACK && t.timers[i].repeat < 0
    ensures Serve(t, i) == (t, if t.ticks % t.timers[i].interval == 0 then [t.timers[i].callback] else [])
  {
    assert t.timers[i := t.timers[i]] == t.timers;
  }

  lemma ServeOn(t: Table, i: nat, called: seq<int>)
    requires IntervalsOk(t) && i < TIMERS_MAX && Serve(t, i) == (t, called)
    ensures ServeFrom(t, i).1 == called + ServeFrom(t, i + 1).1
  {
  }

  lemma Regroup(a: seq<int>, b: seq<int>, c: seq<int>)
    ensures a + (b + c) == (a + b) + c
  {
  }

  lemma FirstTwo(t: Table)
    requires TimersOk(t) && KernelSlots(t)
    ensures ServeFrom(t, 0).1 == KernelCalls(t.ticks) + ServeFrom(t, 2).1
  {
    var first, rest := if t.ticks % REFRESH_INTERVAL == 0 then [TTY_REFRESH] else [], ServeFrom(t, 2).1;
    ServeEndless(t, 0);
    ServeEndless(t, 1);
    hide Serve, ServeFrom, Due, Unused;
    ServeOn(t, 0, first);
    ServeOn(t, 1, [SCHEDULER_TIMER]);
    Regroup(first, [SCHEDULER_TIMER], rest);
  }

  lemma KernelSlotsStay(t: Table)
    requires TimersOk(t) && KernelSlots(t)
    ensures KernelSlots(Irq(t).0)
  {
    forall j | 0 <= j < TIMERS_MAX ensures Irq(t).0.timers[j] == Served(t.timers[j], t.ticks + 1) {
      IrqServes(t, j);
    }
    hide Irq, Unused;
  }

  // Over every run from boot in which nobody takes these two out: so does the interrupt after it.
  lemma KernelCallbacksAlways(es: seq<TimerEvent>)
    requires FairRun(BootTable(), es, TTY_REFRESH) && FairRun(BootTable(), es, SCHEDULER_TIMER)
    ensures var t := TableAfter(BootTable(), es, SCHEDULER_TIMER);
      KernelSlots(t) && t.ticks == Interrupts(es) && KernelCalls(t.ticks + 1) <= Irq(t).1
  {
    hide BootTable;
    KernelSlotsAlways(BootTable(), es);
    KernelCallbacks(TableAfter(BootTable(), es, SCHEDULER_TIMER));
  }

  lemma {:induction false} KernelSlotsAlways(t: Table, es: seq<TimerEvent>)
    requires TimersOk(t) && KernelSlots(t)
    requires FairRun(t, es, TTY_REFRESH) && FairRun(t, es, SCHEDULER_TIMER)
    ensures var t' := TableAfter(t, es, SCHEDULER_TIMER); KernelSlots(t') && t'.ticks == t.ticks + Interrupts(es)
    decreases |es|
  {
    hide Unused, Due;
    if es != [] {
      NextKeeps(t, es[0], SCHEDULER_TIMER);
      KernelSlotsNext(t, es[0]);
      hide Next, Fair, KernelSlots;
      KernelSlotsAlways(Next(t, es[0]).0, es[1..]);
    }
  }

  lemma KernelSlotsNext(t: Table, ev: TimerEvent)
    requires TimersOk(t) && KernelSlots(t) && Fair(t, ev, TTY_REFRESH) && Fair(t, ev, SCHEDULER_TIMER)
    ensures KernelSlots(Next(t, ev).0) && Next(t, ev).0.ticks == t.ticks + (if ev.Interrupt? then 1 else 0)
  {
    hide Unused, Due, Irq;
    match ev
    case Interrupt => KernelCallbacks(t);
    case Register(f, interval, repeat) => RegisterKeeps(t, f, interval, repeat);
    case Unregister(id) =>
  }

  // What the callbacks do to the kernel; the displays do not touch what is modelled of it.
  function CallBack(s: State, f: int): (r: State)
    requires Shaped(s)
    ensures Shaped(r)
  {
    if f == TTY_REFRESH then s.(con := Refresh(s.con))
    else if f == SCHEDULER_TIMER then SchedulerTimer(s)
    else s
  }

  function CallBacks(s: State, fs: seq<int>): (r: State)
    requires Shaped(s)
    ensures Shaped(r)
    decreases |fs|
  {
    if fs == [] then s else CallBacks(CallBack(s, fs[0]), fs[1..])
  }

  lemma {:induction false} NoKernelCalls(s: State, fs: seq<int>)
    requires Shaped(s) && TTY_REFRESH !in fs && SCHEDULER_TIMER !in fs
    ensures CallBacks(s, fs) == s
    decreases |fs|
  {
    if fs != [] {
      assert fs[0] in fs;
      NoKernelCalls(s, fs[1..]);
    }
  }

  lemma KernelCallsFirst(s: State, rest: seq<int>)
    requires Shaped(s)
    ensures CallBacks(s.(ticks := s.ticks + 1), KernelCalls(s.ticks + 1) + rest) == CallBacks(TimerIrq(s), rest)
  {
    hide SchedulerTimer, Refresh, ConsoleOk, IoOk;
    var own := KernelCalls(s.ticks + 1);
    assert (own + rest)[1..] == own[1..] + rest && [SCHEDULER_TIMER] + rest == [SCHEDULER_TIMER] + rest;
    assert ([SCHEDULER_TIMER] + rest)[1..] == rest;
    if |own| == 1 { assert own[1..] + rest == rest; } else { assert own[1..] == [SCHEDULER_TIMER]; }
  }

  lemma CallsSplit(s: State, own: seq<int>, called: seq<int>)
    requires Shaped(s) && own <= called
    ensures CallBacks(s, called) == CallBacks(s, own + called[|own|..])
  {
    hide CallBacks, Shaped;
    assert called == own + called[|own|..];
  }

  lemma CallsInTurn(s: State, called: seq<int>)
    requires Shaped(s)
    requires var own := KernelCalls(s.ticks + 1);
      own <= called && TTY_REFRESH !in called[|own|..] && SCHEDULER_TIMER !in called[|own|..]
    ensures TimerIrq(s) == CallBacks(s.(ticks := s.ticks + 1), called)
  {
    hide KernelCalls, TimerIrq, ConsoleOk, IoOk, CallBack, CallBacks;
    var own := KernelCalls(s.ticks + 1);
    CallsSplit(s.(ticks := s.ticks + 1), own, called);
    KernelCallsFirst(s, called[|own|..]);
    NoKernelCalls(TimerIrq(s), called[|own|..]);
  }

  // The machine's timer interrupt is the table's: it runs what the table calls, in that order.
  lemma TimerIrqCalls(s: State, t: Table)
    requires Shaped(s) && TimersOk(t) && KernelSlots(t) && t.ticks == s.ticks
    ensures TimerIrq(s) == CallBacks(s.(ticks := s.ticks + 1), Irq(t).1)
  {
    hide Irq, KernelSlots, KernelCalls, TimerIrq, ConsoleOk, IoOk, CallBack, CallBacks, Unused;
    KernelCallbacks(t);
    CallsInTurn(s, Irq(t).1);
  }

  // ---- The table in place ----

  class TimerTable {
    var ticks: int
    const timers: array<Timer>
    const allocator: Queue

    ghost const Repr: set<object>

    ghost predicate Valid()
      reads this, Repr
    {
      && this in Repr && timers in Repr && allocator in Repr && allocator.items in Repr
      && timers.Length == TIMERS_MAX
      && allocator.Valid()
    }

    ghost function View(): Table
      reads this, Repr
      requires Valid()
    {
      Table(ticks, timers[..], allocator.contents)
    }

    // timer_init
    constructor ()
      ensures Valid() && fresh(Repr) && TimersOk(View())
      ensures View() == InitTable()
    {
      ticks := 0;
      var table := new Timer[TIMERS_MAX](_ => FREE_TIMER);
      var ids := new Queue(0);
      for i := 0 to TIMERS_MAX
        invariant ids.Valid() && ids.contents == seq(i, j => j)
        invariant fresh(ids) && fresh(ids.items)
        modifies ids, ids.items
      {
        var _ := ids.In(i);
      }
      timers := table;
      allocator := ids;
      Repr := {this, table, ids, ids.items};
      new;
      FullTable(View());
    }

    method Register(f: int, interval: int, repeat: int) returns (id: int)
      requires Valid() && TimersOk(View())
      modifies Repr
      ensures Valid() && (View(), id) == Registered(old(View()), f, interval, repeat)
    {
      if f == NO_CALLBACK {
        return -1;
      }
      ghost var before := View();
      var rc;
      rc, id := allocator.Out(-1);
      if rc != 0 {
        return -1;
      }
      assert id == before.free[0] && allocator.contents == before.free[1..];
      assert id in multiset(before.free);
      timers[id] := Timer(f, interval, repeat);
    }

    method Unregister(id: int) returns (rc: int)
      requires Valid()
      modifies Repr
      ensures Valid() && (View(), rc) == Unregistered(old(View()), id)
    {
      if id < 0 || id >= TIMERS_MAX {
        return -1;
      }
      timers[id] := FREE_TIMER;
      rc := allocator.In(id);
    }

    // The loop's body: a due callback is called, and its last call frees the slot.
    method ServeSlot(i: int) returns (called: seq<int>)
      requires Valid() && IntervalsOk(View()) && 0 <= i < TIMERS_MAX
      modifies Repr
      ensures Valid() && (View(), called) == Serve(old(View()), i)
    {
      called := [];
      ghost var at := View();
      if timers[i].callback != NO_CALLBACK {
        if ticks % timers[i].interval == 0 {
          called := [timers[i].callback];
          if timers[i].repeat > 0 {
            timers[i] := timers[i].(repeat := timers[i].repeat - 1);
          }
          assert View() == at.(timers := at.timers[i := Fired(at.timers[i])]);
          if timers[i].repeat == 0 {
            var _ := Unregister(i);
          }
        }
      }
    }

    // called lists the callbacks called, in order; they leave the table alone.
    method IrqHandler() returns (called: seq<int>)
      requires Valid() && IntervalsOk(View())
      modifies Repr
      ensures Valid() && (View(), called) == Irq(old(View()))
    {
      ticks := ticks + 1;
      called := [];
      ghost var start := View();
      assert start == old(View()).(ticks := old(ticks) + 1);
      for i := 0 to TIMERS_MAX
        invariant Valid() && IntervalsOk(View())
        invariant ServeFrom(View(), i).0 == ServeFrom(start, 0).0
        invariant called + ServeFrom(View(), i).1 == ServeFrom(start, 0).1
      {
        ServeStep(View(), i, called);
        hide Serve;
        var now := ServeSlot(i);
        called := called + now;
      }
      assert called + [] == called;
    }
  }

  lemma ServeStep(t: Table, i: nat, sofar: seq<int>)
    requires IntervalsOk(t) && i < TIMERS_MAX
    ensures IntervalsOk(Serve(t, i).0)
    ensures var (t1, called) := Serve(t, i); var (t', rest) := ServeFrom(t1, i + 1);
      ServeFrom(t, i).0 == t' && sofar + ServeFrom(t, i).1 == (sofar + called) + rest
  {
  }

  lemma FullTable(t: Table)
    requires t == InitTable()
    ensures TimersOk(t)
  {
    FullAllocator(t.free, Unused(t.timers));
  }
}
