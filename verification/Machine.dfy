/** The kernel as values: tables, queues and locks, and what one interrupt does to them.
    A pointer into a table is an index here, and NULL is -1. */
module Machine {
  import opened Screen

  const PROC_MAX := 20
  const PROC_IO_MAX := 4
  const QUEUE_SIZE := 32
  const MUTEX_MAX := 16
  const SEM_MAX := 16
  const SCHEDULER_TIMESLICE := 10
  const TICKS_PER_SECOND := 100
  const REFRESH_INTERVAL := 50
  const NULL := -1

  datatype ProcState = NONE | IDLE | ACTIVE | SLEEPING | WAITING

  // The registers the kernel reads or writes; the others travel in rest.
  datatype Frame = Frame(eax: int, ebx: int, ecx: int, edx: int, eip: int, rest: int)

  datatype Proc = Proc(
    pid: int, state: ProcState, startTime: int, runTime: int, cpuTime: int, sleepTime: int,
    io: seq<int>, frame: Frame)

  datatype Mutex = Mutex(isAllocated: bool, locks: int, owner: int, wait: seq<int>)

  datatype Sem = Sem(isAllocated: bool, count: int, wait: seq<int>)

  datatype State = State(
    procs: seq<Proc>, nextPid: int, procFree: seq<int>,
    active: int, runQ: seq<int>, sleepQ: seq<int>,
    mutexes: seq<Mutex>, mutexFree: seq<int>,
    sems: seq<Sem>, semFree: seq<int>,
    ticks: int, con: Console)

  predicate Shaped(s: State) {
    && |s.procs| == PROC_MAX
    && |s.mutexes| == MUTEX_MAX
    && |s.sems| == SEM_MAX
    && NULL <= s.active < PROC_MAX
    && ConsoleOk(s.con)
    && (forall i :: 0 <= i < PROC_MAX ==> IoOk(s.procs[i].io))
  }

  predicate IoOk(io: seq<int>) {
    |io| == PROC_IO_MAX && forall k :: 0 <= k < PROC_IO_MAX ==> NULL <= io[k] < 2 * TTY_MAX
  }

  const EMPTY_FRAME := Frame(0, 0, 0, 0, 0, 0)
  const NO_IO := [NULL, NULL, NULL, NULL]
  const FREE_PROC := Proc(0, NONE, 0, 0, 0, 0, NO_IO, EMPTY_FRAME)

  // ---- Queues ----

  // queue_in refuses an item when the queue is full.
  function Enqueue(q: seq<int>, item: int): seq<int> {
    if |q| == QUEUE_SIZE then q else q + [item]
  }

  function IndexOf(q: seq<int>, item: int): (k: nat)
    ensures k <= |q|
    ensures k < |q| ==> q[k] == item
    ensures item !in q[..k]
  {
    if q == [] || q[0] == item then 0 else 1 + IndexOf(q[1..], item)
  }

  // ---- Process table (src/kproc.c) ----

  function FindPid(procs: seq<Proc>, pid: int, from: nat): (e: int)
    requires from <= |procs|
    ensures NULL <= e < |procs|
    ensures e == NULL ==> forall i :: from <= i < |procs| ==> procs[i].pid != pid
    ensures e != NULL ==> from <= e && procs[e].pid == pid && forall i :: from <= i < e ==> procs[i].pid != pid
    decreases |procs| - from
  {
    if from == |procs| then NULL
    else if procs[from].pid == pid then from
    else FindPid(procs, pid, from + 1)
  }

  // The first entry that carries the pid, provided it is in use.
  function PidToProc(procs: seq<Proc>, pid: int): (e: int)
    ensures NULL <= e < |procs|
  {
    var e := FindPid(procs, pid, 0);
    if e == NULL || procs[e].state == NONE then NULL else e
  }

  function SetState(procs: seq<Proc>, e: int, st: ProcState): seq<Proc>
    requires 0 <= e < |procs|
  {
    procs[e := procs[e].(state := st)]
  }

  // ---- Scheduler (src/scheduler.c) ----

  function SchedulerAdd(s: State, e: int): (r: State)
    requires Shaped(s) && 0 <= e < PROC_MAX
    ensures Shaped(r)
  {
    s.(runQ := Enqueue(s.runQ, s.procs[e].pid), procs := SetState(s.procs, e, IDLE))
  }

  // Rotating until the item comes up leaves what was behind it in front.
  function Without(q: seq<int>, item: int): seq<int> {
    var k := IndexOf(q, item);
    if k < |q| then q[k + 1..] + q[..k] else q
  }

  function SchedulerRemove(s: State, e: int): (r: State)
    requires Shaped(s) && 0 <= e < PROC_MAX
    ensures Shaped(r)
  {
    var pid := s.procs[e].pid;
    s.(runQ := Without(s.runQ, pid), sleepQ := Without(s.sleepQ, pid),
       active := if s.active != NULL && s.procs[s.active].pid == pid then NULL else s.active)
  }

  function SchedulerSleep(s: State, e: int, seconds: int): (r: State)
    requires Shaped(s) && 0 <= e < PROC_MAX
    ensures Shaped(r)
  {
    var pid := s.procs[e].pid;
    var s := s.(procs := s.procs[e := s.procs[e].(sleepTime := TICKS_PER_SECOND * seconds, state := SLEEPING)]);
    if pid in s.runQ then
      s.(runQ := Without(s.runQ, pid), sleepQ := Enqueue(s.sleepQ, pid))
    else if s.active == e then
      s.(sleepQ := Enqueue(s.sleepQ, pid), active := NULL)
    else if pid in s.sleepQ then
      s.(sleepQ := Enqueue(Without(s.sleepQ, pid), pid))
    else
      s
  }

  // Does this pid wake when its sleep time is next decremented?
  predicate Expires(procs: seq<Proc>, pid: int) {
    var e := PidToProc(procs, pid);
    e != NULL && procs[e].sleepTime <= 1
  }

  function Expired(procs: seq<Proc>, q: seq<int>): (r: seq<int>)
    ensures |r| <= |q|
  {
    if q == [] then [] else
      (if Expires(procs, q[0]) then [q[0]] else []) + Expired(procs, q[1..])
  }

  function StillAsleep(procs: seq<Proc>, q: seq<int>): seq<int> {
    if q == [] then [] else
      (if Expires(procs, q[0]) then [] else [q[0]]) + StillAsleep(procs, q[1..])
  }

  // How many sleepers one tick looks at: the loop counts up from i while the queue,
  // already shorter by the sleepers woken so far, is longer than i.
  function Visits(procs: seq<Proc>, q: seq<int>, i: nat, woken: nat): (v: nat)
    requires i <= |q|
    ensures i <= v <= |q|
    decreases |q| - i
  {
    if i < |q| - woken then
      Visits(procs, q, i + 1, if Expires(procs, q[i]) then woken + 1 else woken)
    else
      i
  }

  function Visited(s: State): (v: nat)
    ensures v <= |s.sleepQ|
  {
    Visits(s.procs, s.sleepQ, 0, 0)
  }

  // One tick off the sleep time of every process named in q.
  function Decrement(procs: seq<Proc>, q: seq<int>): (r: seq<Proc>)
    ensures |r| == |procs|
  {
    seq(|procs|, e requires 0 <= e < |procs| =>
      if e == PidToProc(procs, procs[e].pid) && procs[e].pid in q
      then procs[e].(sleepTime := procs[e].sleepTime - 1)
      else procs[e])
  }

  function ChargeActive(s: State): (r: State)
    requires Shaped(s)
    ensures Shaped(r)
  {
    if s.active == NULL then s
    else
      var p := s.procs[s.active];
      s.(procs := s.procs[s.active := p.(runTime := p.runTime + 1, cpuTime := p.cpuTime + 1)])
  }

  function WakeSleepers(s: State): (r: State)
    requires Shaped(s)
    ensures Shaped(r)
  {
    var q := s.sleepQ;
    var v := Visited(s);
    s.(procs := Decrement(s.procs, q[..v]),
       sleepQ := q[v..] + StillAsleep(s.procs, q[..v]),
       runQ := s.runQ + Expired(s.procs, q[..v]))
  }

  function SchedulerTimer(s: State): (r: State)
    requires Shaped(s)
    ensures Shaped(r)
  {
    WakeSleepers(ChargeActive(s))
  }

  function Preempt(s: State): (r: State)
    requires Shaped(s)
    ensures Shaped(r)
  {
    if s.active != NULL && s.procs[s.active].cpuTime >= SCHEDULER_TIMESLICE then
      var p := s.procs[s.active];
      s.(runQ := if p.pid != 0 then Enqueue(s.runQ, p.pid) else s.runQ,
         procs := s.procs[s.active := p.(cpuTime := 0, state := IDLE)],
         active := NULL)
    else
      s
  }

  function Dispatch(s: State): (r: State)
    requires Shaped(s)
    ensures Shaped(r)
  {
    if s.active != NULL then s
    else
      var next := if s.runQ == [] then NULL else s.runQ[0];
      s.(runQ := if s.runQ == [] then [] else s.runQ[1..],
         active := PidToProc(s.procs, if next == NULL then 0 else next))
  }

  function SchedulerRun(s: State): (r: State)
    requires Shaped(s)
    ensures Shaped(r)
  {
    var s := Dispatch(Preempt(s));
    if s.active == NULL then s else s.(procs := SetState(s.procs, s.active, ACTIVE))
  }

  // ---- Process creation and destruction (src/kproc.c) ----

  // stack is what the slot's stack memory holds where the frame will be.
  function KprocCreate(s: State, entry: int, stack: Frame): (r: (State, int))
    requires Shaped(s)
    ensures Shaped(r.0)
  {
    if s.procFree == [] then (s, -1)
    else
      var e := s.procFree[0];
      var s := s.(procFree := s.procFree[1..]);
      if !(0 <= e < PROC_MAX) then (s, -1)
      else
        var p := Proc(s.nextPid, IDLE, s.ticks, 0, 0, 0, NO_IO, stack.(eip := entry));
        (SchedulerAdd(s.(procs := s.procs[e := p], nextPid := s.nextPid + 1), e), p.pid)
  }

  function KprocDestroy(s: State, e: int): (r: (State, int))
    requires Shaped(s) && 0 <= e < PROC_MAX
    ensures Shaped(r.0)
  {
    if s.procs[e].pid == 0 then (s, -1)
    else
      var s := SchedulerRemove(s, e);
      var ok := |s.procFree| < QUEUE_SIZE;
      (s.(active := if s.active == e then NULL else s.active,
          procs := s.procs[e := FREE_PROC],
          procFree := Enqueue(s.procFree, e)), if ok then 0 else -1)
  }

  // ---- Mutexes (src/kmutex.c) ----

  function KmutexInit(s: State): (r: (State, int))
    requires Shaped(s)
    ensures Shaped(r.0)
  {
    if s.mutexFree == [] then (s, -1)
    else
      var id := s.mutexFree[0];
      var s := s.(mutexFree := s.mutexFree[1..]);
      if !(0 <= id < MUTEX_MAX) then (s, -1)
      else (s.(mutexes := s.mutexes[id := Mutex(true, 0, NULL, [])]), id)
  }

  predicate MutexReady(s: State, id: int) {
    0 <= id < |s.mutexes| && s.mutexes[id].isAllocated
  }

  function KmutexDestroy(s: State, id: int): (r: (State, int))
    requires Shaped(s)
    ensures Shaped(r.0)
  {
    if !MutexReady(s, id) || s.mutexes[id].locks > 0 then (s, -1)
    else
      (s.(mutexFree := Enqueue(s.mutexFree, id),
          mutexes := s.mutexes[id := s.mutexes[id].(isAllocated := false)]), 0)
  }

  function KmutexLock(s: State, id: int): (r: (State, int))
    requires Shaped(s) && 0 <= s.active
    ensures Shaped(r.0)
  {
    if !MutexReady(s, id) then (s, -1)
    else
      var m := s.mutexes[id];
      if m.locks > 0 then
        var m' := m.(locks := m.locks + 1, wait := Enqueue(m.wait, s.procs[s.active].pid));
        var s := s.(mutexes := s.mutexes[id := m'], procs := SetState(s.procs, s.active, WAITING));
        (SchedulerRemove(s, s.active), m'.locks)
      else
        var m' := m.(locks := m.locks + 1, owner := s.active);
        (s.(mutexes := s.mutexes[id := m']), m'.locks)
  }

  function KmutexUnlock(s: State, id: int): (r: (State, int))
    requires Shaped(s)
    ensures Shaped(r.0)
  {
    if !MutexReady(s, id) then (s, -1)
    else
      var m := s.mutexes[id];
      if m.locks == 0 then (s, 0)
      else if m.locks == 1 then
        (s.(mutexes := s.mutexes[id := m.(locks := 0, owner := NULL)]), 0)
      else if m.wait == [] then
        (s.(mutexes := s.mutexes[id := m.(locks := m.locks - 1)]), m.locks - 1)
      else
        var e := PidToProc(s.procs, m.wait[0]);
        var s := s.(mutexes := s.mutexes[id := Mutex(true, m.locks - 1, e, m.wait[1..])]);
        (if e == NULL then s else SchedulerAdd(s, e), m.locks - 1)
  }

  // ---- Semaphores (src/ksem.c) ----

  function KsemInit(s: State, value: int): (r: (State, int))
    requires Shaped(s)
    ensures Shaped(r.0)
  {
    if s.semFree == [] then (s, -1)
    else
      var id := s.semFree[0];
      var s := s.(semFree := s.semFree[1..]);
      if !(0 <= id < SEM_MAX) then (s, -1)
      else (s.(sems := s.sems[id := Sem(true, value, [])]), id)
  }

  predicate SemReady(s: State, id: int) {
    0 <= id < |s.sems| && s.sems[id].isAllocated
  }

  // The result is -1 whether or not the semaphore was destroyed.
  function KsemDestroy(s: State, id: int): (r: (State, int))
    requires Shaped(s)
    ensures Shaped(r.0)
  {
    if !SemReady(s, id) || s.sems[id].count == 0 then (s, -1)
    else
      (s.(semFree := Enqueue(s.semFree, id), sems := s.sems[id := Sem(false, 0, [])]), -1)
  }

  function KsemWait(s: State, id: int): (r: (State, int))
    requires Shaped(s) && 0 <= s.active
    ensures Shaped(r.0)
  {
    if !SemReady(s, id) then (s, -1)
    else
      var m := s.sems[id];
      if m.count == 0 then
        var m' := m.(wait := Enqueue(m.wait, s.procs[s.active].pid));
        var s := s.(sems := s.sems[id := m'], procs := SetState(s.procs, s.active, WAITING));
        (SchedulerRemove(s, s.active), 0)
      else
        (s.(sems := s.sems[id := m.(count := m.count - 1)]), m.count - 1)
  }

  function KsemPost(s: State, id: int): (r: (State, int))
    requires Shaped(s)
    ensures Shaped(r.0)
  {
    if !SemReady(s, id) then (s, -1)
    else
      var m := s.sems[id];
      if m.wait == [] then
        (s.(sems := s.sems[id := m.(count := m.count + 1)]), m.count + 1)
      else
        var e := PidToProc(s.procs, m.wait[0]);
        var s := s.(sems := s.sems[id := m.(wait := m.wait[1..])]);
        (if e == NULL then s else SchedulerAdd(s, e), m.count)
  }

  // ---- System calls (src/ksyscall.c) ----

  const SYS_IO_READ := 1
  const SYS_IO_WRITE := 2
  const SYS_IO_FLUSH := 3
  const SYS_GET_TIME := 4
  const SYS_GET_NAME := 5
  const SYS_SLEEP := 6
  const SYS_EXIT := 7
  const SYS_GET_PID := 8
  const SYS_PROC_NAME := 9
  const SYS_MUTEX_INIT := 10
  const SYS_MUTEX_DESTROY := 11
  const SYS_MUTEX_LOCK := 12
  const SYS_MUTEX_UNLOCK := 13
  const SYS_SEM_INIT := 14
  const SYS_SEM_DESTROY := 15
  const SYS_SEM_WAIT := 16
  const SYS_SEM_POST := 17

  // mem is the caller's memory at the buffer argument. A write reports its size
  // even when the ring buffer refused the bytes.
  function IoWrite(s: State, io: int, mem: seq<Char>, size: int): (r: (State, int))
    requires Shaped(s) && 0 <= s.active && io != PROC_IO_MAX && 0 <= size <= |mem|
    ensures Shaped(r.0)
  {
    if io > PROC_IO_MAX || io < 0 then (s, -1)
    else
      var b := s.procs[s.active].io[io];
      if b == NULL then (s, -1)
      else (s.(con := SetBuffer(s.con, b, Accept(Buffer(s.con, b), mem[..size]))), size)
  }

  function Min(a: int, b: int): int { if a <= b then a else b }

  // The bytes handed to the caller, in the order they were written.
  function Delivered(s: State, io: int, size: int): seq<Char>
    requires Shaped(s) && 0 <= s.active && 0 <= io < PROC_IO_MAX && 0 <= size
  {
    var b := s.procs[s.active].io[io];
    if b == NULL then [] else Buffer(s.con, b)[..Min(size, |Buffer(s.con, b)|)]
  }

  function IoRead(s: State, io: int, size: int): (r: (State, int))
    requires Shaped(s) && 0 <= s.active && 0 <= io < PROC_IO_MAX && 0 <= size
    ensures Shaped(r.0)
  {
    var b := s.procs[s.active].io[io];
    if b == NULL then (s, -1)
    else
      var n := Min(size, |Buffer(s.con, b)|);
      (s.(con := SetBuffer(s.con, b, Buffer(s.con, b)[n..])), n)
  }

  function IoFlush(s: State, io: int): (r: (State, int))
    requires Shaped(s) && 0 <= s.active && io != PROC_IO_MAX
    ensures Shaped(r.0)
  {
    if io > PROC_IO_MAX || io < 0 then (s, -1)
    else
      var b := s.procs[s.active].io[io];
      if b == NULL then (s, -1) else (s.(con := SetBuffer(s.con, b, [])), 0)
  }

  // What a caller must respect for the C code to be defined, and the numbers it does not panic on.
  predicate CallOk(f: Frame, mem: seq<Char>) {
    && SYS_IO_READ <= f.eax <= SYS_SEM_POST
    && (f.eax == SYS_IO_READ ==> 0 <= f.ebx < PROC_IO_MAX && 0 <= f.edx <= |mem|)
    && (f.eax == SYS_IO_WRITE ==> f.ebx != PROC_IO_MAX && 0 <= f.edx <= |mem|)
    && (f.eax == SYS_IO_FLUSH ==> f.ebx != PROC_IO_MAX)
  }

  // The calls that give the caller a result in eax: all but exit and sleep.
  function Call(s: State, f: Frame, mem: seq<Char>): (r: (State, int))
    requires Shaped(s) && 0 <= s.active && CallOk(f, mem)
    requires f.eax != SYS_EXIT && f.eax != SYS_SLEEP
    ensures Shaped(r.0)
  {
    match f.eax
    case 1 => IoRead(s, f.ebx, f.edx)
    case 2 => IoWrite(s, f.ebx, mem, f.edx)
    case 3 => IoFlush(s, f.ebx)
    case 4 => (s, s.ticks / TICKS_PER_SECOND)
    case 5 => (s, if f.ebx == 0 then -1 else 0)
    case 8 => (s, if s.procs[s.active].pid == 0 then -1 else s.procs[s.active].pid)
    case 9 => (s, if f.ebx == 0 then -1 else 0)
    case 10 => KmutexInit(s)
    case 11 => KmutexDestroy(s, f.ebx)
    case 12 => KmutexLock(s, f.ebx)
    case 13 => KmutexUnlock(s, f.ebx)
    case 14 => KsemInit(s, f.ebx)
    case 15 => KsemDestroy(s, f.ebx)
    case 16 => KsemWait(s, f.ebx)
    case _ => KsemPost(s, f.ebx)
  }

  function SetEax(procs: seq<Proc>, e: int, value: int): seq<Proc>
    requires 0 <= e < |procs|
  {
    procs[e := procs[e].(frame := procs[e].frame.(eax := value))]
  }

  function SyscallIrq(s: State, mem: seq<Char>): (r: State)
    requires Shaped(s) && 0 <= s.active && CallOk(s.procs[s.active].frame, mem)
    ensures Shaped(r)
  {
    var f := s.procs[s.active].frame;
    if f.eax == SYS_EXIT then KprocDestroy(s, s.active).0
    else if f.eax == SYS_SLEEP then SchedulerSleep(s, s.active, f.ebx)
    else
      var (s', rc) := Call(s, f, mem);
      s'.(procs := SetEax(s'.procs, s.active, rc))
  }

  // ---- One interrupt (src/kernel.c) ----

  // What a decoded key makes the kernel do (src/keyboard.c).
  datatype Key = NoKey | NewProcess(entry: int, stack: Frame) | Quit | SelectTty(n: int) | Typed(c: Char)

  datatype Event =
    | Tick(frame: Frame)
    | Keyboard(frame: Frame, key: Key)
    | Syscall(frame: Frame, mem: seq<Char>)

  function TimerIrq(s: State): (r: State)
    requires Shaped(s)
    ensures Shaped(r)
  {
    var s := s.(ticks := s.ticks + 1);
    SchedulerTimer(if s.ticks % REFRESH_INTERVAL == 0 then s.(con := Refresh(s.con)) else s)
  }

  function KeyboardIrq(s: State, key: Key): (r: State)
    requires Shaped(s) && 0 <= s.active
    ensures Shaped(r)
  {
    match key
    case NoKey => s
    case NewProcess(entry, stack) => KprocCreate(s, entry, stack).0
    case Quit => KprocDestroy(s, s.active).0
    case SelectTty(n) => s.(con := Select(s.con, n))
    case Typed(c) => s.(con := Input(s.con, c))
  }

  function SaveFrame(s: State, frame: Frame): (r: State)
    requires Shaped(s)
    ensures Shaped(r)
  {
    if s.active == NULL then s
    else s.(procs := s.procs[s.active := s.procs[s.active].(frame := frame)])
  }

  function Handle(s: State, ev: Event): (r: State)
    requires Shaped(s) && 0 <= s.active && (ev.Syscall? ==> CallOk(ev.frame, ev.mem))
    ensures Shaped(r)
  {
    var s := SaveFrame(s, ev.frame);
    match ev
    case Tick(_) => TimerIrq(s)
    case Keyboard(_, key) => KeyboardIrq(s, key)
    case Syscall(_, mem) => SyscallIrq(s, mem)
  }

  // kernel_context_enter: save the interrupted process, serve the interrupt, pick what runs next.
  function Step(s: State, ev: Event): (r: State)
    requires Shaped(s) && 0 <= s.active && (ev.Syscall? ==> CallOk(ev.frame, ev.mem))
    ensures Shaped(r)
  {
    SchedulerRun(Handle(s, ev))
  }
}
