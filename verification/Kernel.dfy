/** The kernel in place: the tables, queues and locks of the C code as objects, and its functions as
    methods. Each method's contract is the corresponding function of module Machine. */
module Kernels {
  import opened Screen
  import opened Machine
  import opened Queues
  import opened RingBufs
  import opened Consoles
  import opened Invariant
  import opened Preservation
  import opened Runs
  import opened Sleepers
  import opened Streams

  // proc_t
  class Process {
    // Stands for the record's place in the process table.
    const entry: int
    var pid: int
    var state: ProcState
    var startTime: int
    var runTime: int
    var cpuTime: int
    var sleepTime: int
    var io: seq<RingBuf?>
    var frame: Frame

    ghost function View(): Proc
      reads this
    {
      Proc(pid, state, startTime, runTime, cpuTime, sleepTime,
           seq(|io|, k requires 0 <= k < |io| reads this => if io[k] == null then NULL else io[k].id), frame)
    }

    constructor (entry: int)
      ensures this.entry == entry && View() == FREE_PROC && |io| == PROC_IO_MAX
      ensures forall k :: 0 <= k < PROC_IO_MAX ==> io[k] == null
    {
      this.entry := entry;
      pid, state, startTime, runTime, cpuTime, sleepTime := 0, NONE, 0, 0, 0, 0;
      io := [null, null, null, null];
      frame := EMPTY_FRAME;
    }

    // memset to zero
    method Clear()
      modifies this
      ensures View() == FREE_PROC && |io| == PROC_IO_MAX
      ensures forall k :: 0 <= k < PROC_IO_MAX ==> io[k] == null
    {
      pid, state, startTime, runTime, cpuTime, sleepTime := 0, NONE, 0, 0, 0, 0;
      io := [null, null, null, null];
      frame := EMPTY_FRAME;
    }
  }

  // A pointer into the process table as an index.
  ghost function EntryOf(p: Process?): int {
    if p == null then NULL else p.entry
  }

  // mutex_t
  class KMutex {
    var isAllocated: bool
    var locks: int
    var owner: Process?
    const waitQueue: Queue

    ghost function View(): Mutex
      reads this, waitQueue
    {
      Mutex(isAllocated, locks, EntryOf(owner), waitQueue.contents)
    }

    constructor (waitQueue: Queue)
      ensures this.waitQueue == waitQueue && !isAllocated && locks == 0 && owner == null
    {
      isAllocated, locks, owner := false, 0, null;
      this.waitQueue := waitQueue;
    }
  }

  // sem_t
  class KSem {
    var isAllocated: bool
    var count: int
    const waitQueue: Queue

    ghost function View(): Sem
      reads this, waitQueue
    {
      Sem(isAllocated, count, waitQueue.contents)
    }

    constructor (waitQueue: Queue)
      ensures this.waitQueue == waitQueue && !isAllocated && count == 0
    {
      isAllocated, count := false, 0;
      this.waitQueue := waitQueue;
    }
  }

  // Where the queues are, by id.
  const PROC_ALLOCATOR := 0
  const RUN_QUEUE := 1
  const SLEEP_QUEUE := 2
  const MUTEX_QUEUE := 3
  const SEM_QUEUE := 4
  const MUTEX_WAITS := 5
  const SEM_WAITS := MUTEX_WAITS + MUTEX_MAX
  const QUEUES := SEM_WAITS + SEM_MAX

  // The state with other contents in one of its queues.
  ghost function WithQueue(s: State, id: int, q: seq<int>): State
    requires Shaped(s) && 0 <= id < QUEUES
  {
    if id == PROC_ALLOCATOR then s.(procFree := q)
    else if id == RUN_QUEUE then s.(runQ := q)
    else if id == SLEEP_QUEUE then s.(sleepQ := q)
    else if id == MUTEX_QUEUE then s.(mutexFree := q)
    else if id == SEM_QUEUE then s.(semFree := q)
    else if id < SEM_WAITS then
      s.(mutexes := s.mutexes[id - MUTEX_WAITS := s.mutexes[id - MUTEX_WAITS].(wait := q)])
    else
      s.(sems := s.sems[id - SEM_WAITS := s.sems[id - SEM_WAITS].(wait := q)])
  }

  // The objects of the tables are where they belong, and none is there twice.
  ghost predicate LaidOut(qs: seq<Queue>, ps: seq<Process>, ms: seq<KMutex>, ss: seq<KSem>, repr: set<object>)
    reads qs, set q | q in qs :: q.items, ps, ms
  {
    && |qs| == QUEUES && |ps| == PROC_MAX && |ms| == MUTEX_MAX && |ss| == SEM_MAX
    && (forall i :: 0 <= i < QUEUES ==> qs[i] in repr && qs[i].items in repr && qs[i].Valid() && qs[i].id == i)
    && (forall i, j :: 0 <= i < j < QUEUES ==> qs[i].items != qs[j].items)
    && (forall e :: 0 <= e < PROC_MAX ==> ps[e] in repr && ps[e].entry == e && ps[e].io == [null, null, null, null])
    && (forall i :: 0 <= i < MUTEX_MAX ==> ms[i] in repr && ms[i].waitQueue == qs[MUTEX_WAITS + i] && ms[i].owner == null)
    && (forall i :: 0 <= i < SEM_MAX ==> ss[i] in repr && ss[i].waitQueue == qs[SEM_WAITS + i])
  }

  // As zeroed memory is.
  ghost predicate Zeroed(qs: seq<Queue>, ps: seq<Process>, ms: seq<KMutex>, ss: seq<KSem>)
    reads qs, ps, ms, ss
  {
    && (forall i :: 0 <= i < |qs| ==> qs[i].contents == [])
    && (forall e :: 0 <= e < |ps| ==> ps[e].View() == FREE_PROC)
    && (forall i :: 0 <= i < |ms| ==> !ms[i].isAllocated && ms[i].locks == 0 && ms[i].owner == null)
    && (forall i :: 0 <= i < |ss| ==> !ss[i].isAllocated && ss[i].count == 0)
  }

  class Kernel {
    const procTable: seq<Process>
    const procAllocator: Queue
    const runQueue: Queue
    const sleepQueue: Queue
    const mutexes: seq<KMutex>
    const mutexQueue: Queue
    const semaphores: seq<KSem>
    const semQueue: Queue
    const console: Consoles.TtyTable
    var nextPid: int
    var active: Process?
    var ticks: int

    ghost const queues: seq<Queue>
    ghost const Repr: set<object>

    // The kernel's globals do not overlap.
    ghost predicate Separate() {
      && |procTable| == PROC_MAX && |mutexes| == MUTEX_MAX && |semaphores| == SEM_MAX && |queues| == QUEUES
      && this in Repr && this !in console.Repr && console in Repr && console.Repr <= Repr
      && (forall e :: 0 <= e < PROC_MAX ==>
            procTable[e].entry == e && procTable[e] in Repr && procTable[e] !in console.Repr)
      && (forall i :: 0 <= i < QUEUES ==>
            queues[i].id == i && queues[i] in Repr && queues[i] !in console.Repr &&
            queues[i].items in Repr && queues[i].items !in console.Repr)
      && (forall i, j :: 0 <= i < j < QUEUES ==> queues[i].items != queues[j].items)
      && (forall i :: 0 <= i < MUTEX_MAX ==>
            mutexes[i] in Repr && mutexes[i] !in console.Repr && mutexes[i].waitQueue == queues[MUTEX_WAITS + i])
      && (forall i :: 0 <= i < SEM_MAX ==>
            semaphores[i] in Repr && semaphores[i] !in console.Repr && semaphores[i].waitQueue == queues[SEM_WAITS + i])
      && procAllocator == queues[PROC_ALLOCATOR] && runQueue == queues[RUN_QUEUE] && sleepQueue == queues[SLEEP_QUEUE]
      && mutexQueue == queues[MUTEX_QUEUE] && semQueue == queues[SEM_QUEUE]
    }

    ghost predicate InTable(p: Process?) {
      p != null ==> 0 <= p.entry < |procTable| && procTable[p.entry] == p
    }

    ghost predicate IoPlaced(p: Process)
      reads p
    {
      |p.io| == PROC_IO_MAX && forall k :: 0 <= k < PROC_IO_MAX && p.io[k] != null ==> console.HasBuffer(p.io[k])
    }

    ghost predicate QueuesOk()
      reads queues, set q | q in queues :: q.items
    {
      forall q :: q in queues ==> q.Valid()
    }

    ghost predicate ProcsOk()
      reads procTable
    {
      forall e :: 0 <= e < |procTable| ==> IoPlaced(procTable[e])
    }

    ghost predicate OwnersOk()
      reads mutexes
    {
      forall i :: 0 <= i < |mutexes| ==> InTable(mutexes[i].owner)
    }

    ghost predicate Valid()
      reads this, Repr
    {
      Separate() && console.Valid() && QueuesOk() && ProcsOk() && OwnersOk() && InTable(active)
    }

    ghost function Procs(): (ps: seq<Proc>)
      reads procTable
      ensures |ps| == |procTable|
    {
      seq(|procTable|, e requires 0 <= e < |procTable| reads procTable => procTable[e].View())
    }

    ghost function Mutexes(): (ms: seq<Mutex>)
      requires Separate()
      reads mutexes, queues
      ensures |ms| == MUTEX_MAX
    {
      seq(MUTEX_MAX, i requires 0 <= i < MUTEX_MAX && Separate() reads mutexes, queues => mutexes[i].View())
    }

    ghost function Sems(): (ms: seq<Sem>)
      requires Separate()
      reads semaphores, queues
      ensures |ms| == SEM_MAX
    {
      seq(SEM_MAX, i requires 0 <= i < SEM_MAX && Separate() reads semaphores, queues => semaphores[i].View())
    }

    ghost function View(): (s: State)
      reads this, Repr
      requires Valid()
      ensures Shaped(s)
    {
      State(
        Procs(), nextPid, procAllocator.contents, EntryOf(active), runQueue.contents, sleepQueue.contents,
        Mutexes(), mutexQueue.contents, Sems(), semQueue.contents, ticks, console.View())
    }

    constructor (qs: seq<Queue>, ps: seq<Process>, ms: seq<KMutex>, ss: seq<KSem>,
                 con: Consoles.TtyTable, ghost repr: set<object>)
      requires LaidOut(qs, ps, ms, ss, repr) && con.Valid() && con.Repr !! repr
      ensures Valid() && Repr == {this, con} + con.Repr + repr
      ensures procTable == ps && mutexes == ms && semaphores == ss && console == con && queues == qs
      ensures nextPid == 0 && active == null && ticks == 0
    {
      procTable, mutexes, semaphores, console := ps, ms, ss, con;
      procAllocator, runQueue, sleepQueue := qs[PROC_ALLOCATOR], qs[RUN_QUEUE], qs[SLEEP_QUEUE];
      mutexQueue, semQueue := qs[MUTEX_QUEUE], qs[SEM_QUEUE];
      nextPid, active, ticks := 0, null, 0;
      queues := qs;
      Repr := {this, con} + con.Repr + repr;
    }

    // Zeroed memory, and the terminals as tty_init leaves them.
    static method Load() returns (k: Kernel)
      ensures k.Valid() && fresh(k.Repr)
      ensures k.View() == Blank().(procFree := [], mutexFree := [], semFree := [])
    {
      hide ConsoleOk, TtyOk, LaidOut, Zeroed, Kernel.Valid, Kernel.View, Consoles.TtyTable.Valid, Consoles.TtyTable.View;
      var con := new Consoles.TtyTable();
      assert con.View() == Blank().con;
      hide Blank;
      var qs, ps, ms, ss;
      ghost var repr;
      qs, ps, ms, ss, repr := NewTables();
      k := new Kernel(qs, ps, ms, ss, con, repr);
      k.ZeroView();
    }

    static method NewTables()
      returns (qs: seq<Queue>, ps: seq<Process>, ms: seq<KMutex>, ss: seq<KSem>, ghost repr: set<object>)
      ensures fresh(repr) && LaidOut(qs, ps, ms, ss, repr) && Zeroed(qs, ps, ms, ss)
    {
      ghost var r1, r2, r3, r4;
      qs, r1 := NewQueues();
      ps, r2 := NewProcesses();
      ms, r3 := NewMutexes(qs);
      ss, r4 := NewSems(qs);
      repr := r1 + r2 + r3 + r4;
    }

    lemma ZeroView()
      requires Valid() && nextPid == 0 && active == null && ticks == 0
      requires console.View() == Blank().con && Zeroed(queues, procTable, mutexes, semaphores)
      ensures View() == Blank().(procFree := [], mutexFree := [], semFree := [])
    {
      hide ConsoleOk, TtyOk;
      assert View().procs == Blank().procs;
      assert View().mutexes == Blank().mutexes;
      assert View().sems == Blank().sems;
    }

    static method NewQueues() returns (qs: seq<Queue>, ghost repr: set<object>)
      ensures fresh(repr) && |qs| == QUEUES
      ensures forall i :: 0 <= i < QUEUES ==>
        qs[i] in repr && qs[i].items in repr && qs[i].Valid() && qs[i].id == i && qs[i].contents == []
      ensures forall i, j :: 0 <= i < j < QUEUES ==> qs[i].items != qs[j].items
    {
      qs, repr := [], {};
      for k := 0 to QUEUES
        invariant fresh(repr) && |qs| == k
        invariant forall i :: 0 <= i < k ==>
          qs[i] in repr && qs[i].items in repr && qs[i].Valid() && qs[i].id == i && qs[i].contents == []
        invariant forall i, j :: 0 <= i < j < k ==> qs[i].items != qs[j].items
      {
        var q := new Queue(k);
        qs := qs + [q];
        repr := repr + {q, q.items};
      }
    }

    static method NewProcesses() returns (ps: seq<Process>, ghost repr: set<object>)
      ensures fresh(repr) && |ps| == PROC_MAX
      ensures forall e :: 0 <= e < PROC_MAX ==> ps[e] in repr && ps[e].entry == e && ps[e].View() == FREE_PROC
      ensures forall e :: 0 <= e < PROC_MAX ==> ps[e].io == [null, null, null, null]
    {
      ps, repr := [], {};
      for k := 0 to PROC_MAX
        invariant fresh(repr) && |ps| == k
        invariant forall e :: 0 <= e < k ==> ps[e] in repr && ps[e].entry == e && ps[e].View() == FREE_PROC
        invariant forall e :: 0 <= e < k ==> ps[e].io == [null, null, null, null]
      {
        var p := new Process(k);
        ps := ps + [p];
        repr := repr + {p};
      }
    }

    static method NewMutexes(qs: seq<Queue>) returns (ms: seq<KMutex>, ghost repr: set<object>)
      requires |qs| == QUEUES
      ensures fresh(repr) && |ms| == MUTEX_MAX
      ensures forall i :: 0 <= i < MUTEX_MAX ==> ms[i] in repr && ms[i].waitQueue == qs[MUTEX_WAITS + i] && ms[i].owner == null
      ensures forall i :: 0 <= i < MUTEX_MAX ==> !ms[i].isAllocated && ms[i].locks == 0
    {
      ms, repr := [], {};
      for k := 0 to MUTEX_MAX
        invariant fresh(repr) && |ms| == k
        invariant forall i :: 0 <= i < k ==> ms[i] in repr && ms[i].waitQueue == qs[MUTEX_WAITS + i] && ms[i].owner == null
        invariant forall i :: 0 <= i < k ==> !ms[i].isAllocated && ms[i].locks == 0
      {
        var m := new KMutex(qs[MUTEX_WAITS + k]);
        ms := ms + [m];
        repr := repr + {m};
      }
    }

    static method NewSems(qs: seq<Queue>) returns (ms: seq<KSem>, ghost repr: set<object>)
      requires |qs| == QUEUES
      ensures fresh(repr) && |ms| == SEM_MAX
      ensures forall i :: 0 <= i < SEM_MAX ==> ms[i] in repr && ms[i].waitQueue == qs[SEM_WAITS + i]
      ensures forall i :: 0 <= i < SEM_MAX ==> !ms[i].isAllocated && ms[i].count == 0
    {
      ms, repr := [], {};
      for k := 0 to SEM_MAX
        invariant fresh(repr) && |ms| == k
        invariant forall i :: 0 <= i < k ==> ms[i] in repr && ms[i].waitQueue == qs[SEM_WAITS + i]
        invariant forall i :: 0 <= i < k ==> !ms[i].isAllocated && ms[i].count == 0
      {
        var m := new KSem(qs[SEM_WAITS + k]);
        ms := ms + [m];
        repr := repr + {m};
      }
    }

    // ---- What a change in one object means for the whole ----

    twostate lemma SameConsole()
      requires old(Valid()) && forall o: object :: o in console.Repr ==> unchanged(o)
      ensures console.Valid() && console.View() == old(console.View())
    {
      hide ConsoleOk, TtyOk;
    }

    twostate lemma SameQueues()
      requires old(Valid()) && forall i :: 0 <= i < QUEUES ==> unchanged(queues[i]) && unchanged(queues[i].items)
      ensures QueuesOk() && forall i :: 0 <= i < QUEUES ==> queues[i].contents == old(queues[i].contents)
    {
      hide ConsoleOk, TtyOk;
    }

    twostate lemma SameProcs()
      requires old(Valid()) && forall e :: 0 <= e < PROC_MAX ==> unchanged(procTable[e])
      ensures ProcsOk() && Procs() == old(Procs())
    {
      hide ConsoleOk, TtyOk;
    }

    twostate lemma SameMutexes()
      requires old(Valid())
      requires forall i :: 0 <= i < MUTEX_MAX ==> unchanged(mutexes[i]) && unchanged(queues[MUTEX_WAITS + i])
      ensures OwnersOk() && Mutexes() == old(Mutexes())
    {
      hide ConsoleOk, TtyOk;
    }

    twostate lemma SameSems()
      requires old(Valid())
      requires forall i :: 0 <= i < SEM_MAX ==> unchanged(semaphores[i]) && unchanged(queues[SEM_WAITS + i])
      ensures Sems() == old(Sems())
    {
      hide ConsoleOk, TtyOk;
    }

    ghost predicate Has(q: Queue) {
      |queues| == QUEUES && 0 <= q.id < QUEUES && queues[q.id] == q
    }

    twostate lemma OneQueue(q: Queue)
      requires old(Valid()) && Has(q) && q.Valid()
      requires forall o: object :: o in Repr && o != q && o != q.items ==> unchanged(o)
      ensures QueuesOk()
      ensures forall i :: 0 <= i < QUEUES && i != q.id ==> queues[i].contents == old(queues[i].contents)
    {
      hide ConsoleOk, TtyOk;
    }

    twostate lemma OneQueueMutexes(q: Queue)
      requires old(Valid()) && Has(q)
      requires forall o: object :: o in Repr && o != q && o != q.items ==> unchanged(o)
      ensures OwnersOk()
      ensures var ms, i := old(Mutexes()), q.id - MUTEX_WAITS;
        Mutexes() == if MUTEX_WAITS <= q.id < SEM_WAITS then ms[i := ms[i].(wait := q.contents)] else ms
    {
      hide ConsoleOk, TtyOk;
    }

    twostate lemma OneQueueSems(q: Queue)
      requires old(Valid()) && Has(q)
      requires forall o: object :: o in Repr && o != q && o != q.items ==> unchanged(o)
      ensures var ms, i := old(Sems()), q.id - SEM_WAITS;
        Sems() == if SEM_WAITS <= q.id then ms[i := ms[i].(wait := q.contents)] else ms
    {
      hide ConsoleOk, TtyOk;
    }

    twostate lemma QueueFrame(q: Queue)
      requires old(Valid()) && Has(q) && q.Valid()
      requires forall o: object :: o in Repr && o != q && o != q.items ==> unchanged(o)
      ensures Valid() && View() == WithQueue(old(View()), q.id, q.contents)
    {
      hide ProcsOk, OwnersOk, Procs, ConsoleOk, TtyOk;
      SameConsole();
      SameProcs();
      OneQueue(q);
      OneQueueMutexes(q);
      OneQueueSems(q);
    }

    twostate lemma OneProcess(p: Process)
      requires old(Valid()) && InTable(p) && IoPlaced(p)
      requires forall o: object :: o in Repr && o != p ==> unchanged(o)
      ensures ProcsOk() && Procs() == old(Procs())[p.entry := p.View()]
    {
      hide ConsoleOk, TtyOk;
    }

    twostate lemma ProcessFrame(p: Process)
      requires old(Valid()) && InTable(p) && IoPlaced(p)
      requires forall o: object :: o in Repr && o != p ==> unchanged(o)
      ensures Valid() && View() == old(View()).(procs := old(View()).procs[p.entry := p.View()])
    {
      hide QueuesOk, ProcsOk, OwnersOk, Procs, Mutexes, Sems, ConsoleOk, TtyOk;
      SameConsole();
      SameQueues();
      SameMutexes();
      SameSems();
      OneProcess(p);
    }

    twostate lemma OneMutex(i: int)
      requires old(Valid()) && 0 <= i < MUTEX_MAX && InTable(mutexes[i].owner)
      requires forall o: object :: o in Repr && o != mutexes[i] ==> unchanged(o)
      ensures OwnersOk() && Mutexes() == old(Mutexes())[i := mutexes[i].View()]
    {
      hide ConsoleOk, TtyOk;
    }

    twostate lemma MutexFrame(i: int)
      requires old(Valid()) && 0 <= i < MUTEX_MAX && InTable(mutexes[i].owner)
      requires forall o: object :: o in Repr && o != mutexes[i] ==> unchanged(o)
      ensures Valid() && View() == old(View()).(mutexes := old(View()).mutexes[i := mutexes[i].View()])
    {
      hide QueuesOk, ProcsOk, OwnersOk, Procs, Mutexes, Sems, ConsoleOk, TtyOk;
      var m := mutexes[i];
      SameConsole();
      SameQueues();
      SameProcs();
      SameSems();
      OneMutex(i);
    }

    twostate lemma OneSem(i: int)
      requires old(Valid()) && 0 <= i < SEM_MAX
      requires forall o: object :: o in Repr && o != semaphores[i] ==> unchanged(o)
      ensures Sems() == old(Sems())[i := semaphores[i].View()]
    {
      hide ConsoleOk, TtyOk;
    }

    twostate lemma SemFrame(i: int)
      requires old(Valid()) && 0 <= i < SEM_MAX
      requires forall o: object :: o in Repr && o != semaphores[i] ==> unchanged(o)
      ensures Valid() && View() == old(View()).(sems := old(View()).sems[i := semaphores[i].View()])
    {
      hide QueuesOk, ProcsOk, OwnersOk, Procs, Mutexes, Sems, ConsoleOk, TtyOk;
      var m := semaphores[i];
      SameConsole();
      SameQueues();
      SameProcs();
      SameMutexes();
      OneSem(i);
    }

    twostate lemma SelfFrame()
      requires old(Valid()) && InTable(active)
      requires forall o: object :: o in Repr && o != this ==> unchanged(o)
      ensures Valid() && View() == old(View()).(nextPid := nextPid, active := EntryOf(active), ticks := ticks)
    {
      hide QueuesOk, ProcsOk, OwnersOk, Procs, Mutexes, Sems, ConsoleOk, TtyOk;
      SameConsole();
      SameQueues();
      SameProcs();
      SameMutexes();
      SameSems();
    }

    twostate lemma ConsoleFrame()
      requires old(Valid()) && console.Valid()
      requires forall o: object :: o in Repr && o !in console.Repr ==> unchanged(o)
      ensures Valid() && View() == old(View()).(con := console.View())
    {
      hide QueuesOk, ProcsOk, OwnersOk, Procs, Mutexes, Sems, ConsoleOk, TtyOk;
      SameQueues();
      SameProcs();
      SameMutexes();
      SameSems();
    }

    // ---- How the parts show in the whole ----

    lemma Parts()
      requires Valid()
      ensures this in Repr && |procTable| == PROC_MAX && |mutexes| == MUTEX_MAX && |semaphores| == SEM_MAX
      ensures Has(procAllocator) && Has(runQueue) && Has(sleepQueue) && Has(mutexQueue) && Has(semQueue)
      ensures procAllocator.id == PROC_ALLOCATOR && runQueue.id == RUN_QUEUE && sleepQueue.id == SLEEP_QUEUE
      ensures mutexQueue.id == MUTEX_QUEUE && semQueue.id == SEM_QUEUE
      ensures InTable(active) && View().active == EntryOf(active) && View().nextPid == nextPid && View().ticks == ticks
      ensures View().con == console.View() && console.Valid() && console in Repr && console.Repr <= Repr
    {
      hide ConsoleOk, TtyOk;
    }

    lemma ProcessPart(p: Process)
      requires Valid() && InTable(p)
      ensures p in Repr && 0 <= p.entry < PROC_MAX && View().procs[p.entry] == p.View() && IoPlaced(p)
    {
      hide ConsoleOk, TtyOk;
    }

    lemma MutexPart(id: int)
      requires Valid() && 0 <= id < MUTEX_MAX
      ensures |mutexes| == MUTEX_MAX && mutexes[id] in Repr
      ensures View().mutexes[id] == mutexes[id].View() && InTable(mutexes[id].owner)
      ensures var q := mutexes[id].waitQueue; Has(q) && q.id == MUTEX_WAITS + id && q.Valid()
    {
      hide ConsoleOk, TtyOk;
    }

    lemma SemPart(id: int)
      requires Valid() && 0 <= id < SEM_MAX
      ensures |semaphores| == SEM_MAX && semaphores[id] in Repr
      ensures View().sems[id] == semaphores[id].View()
      ensures var q := semaphores[id].waitQueue; Has(q) && q.id == SEM_WAITS + id && q.Valid()
    {
      hide ConsoleOk, TtyOk;
    }

    // ---- The kernel's queues, as queue_in and queue_out change them ----

    ghost function QueueOf(s: State, id: int): seq<int>
      requires Shaped(s) && 0 <= id < QUEUES
    {
      if id == PROC_ALLOCATOR then s.procFree
      else if id == RUN_QUEUE then s.runQ
      else if id == SLEEP_QUEUE then s.sleepQ
      else if id == MUTEX_QUEUE then s.mutexFree
      else if id == SEM_QUEUE then s.semFree
      else if id < SEM_WAITS then s.mutexes[id - MUTEX_WAITS].wait
      else s.sems[id - SEM_WAITS].wait
    }

    lemma QueuePart(q: Queue)
      requires Valid() && Has(q)
      ensures q in Repr && q.items in Repr && q.Valid() && q.contents == QueueOf(View(), q.id)
    {
      hide ConsoleOk, TtyOk;
    }

    method QueueIn(q: Queue, item: int) returns (rc: int)
      requires Valid() && Has(q)
      modifies Repr
      ensures Valid()
      ensures rc == (if |QueueOf(old(View()), q.id)| == QUEUE_SIZE then -1 else 0)
      ensures View() == WithQueue(old(View()), q.id, Enqueue(QueueOf(old(View()), q.id), item))
    {
      QueuePart(q);
      hide Valid, View, Separate, QueueOf, WithQueue;
      rc := q.In(item);
      QueueFrame(q);
    }

    method QueueInit(q: Queue)
      requires Valid() && Has(q)
      modifies Repr
      ensures Valid() && View() == WithQueue(old(View()), q.id, [])
    {
      QueuePart(q);
      hide Valid, View, Separate, WithQueue;
      q.Init();
      QueueFrame(q);
    }

    method QueueOut(q: Queue, before: int) returns (rc: int, item: int)
      requires Valid() && Has(q)
      modifies Repr
      ensures Valid()
      ensures var c := QueueOf(old(View()), q.id);
        if c == [] then rc == -1 && item == before && View() == old(View())
        else rc == 0 && item == c[0] && View() == WithQueue(old(View()), q.id, c[1..])
    {
      QueuePart(q);
      WithSame(View(), q.id);
      hide Valid, View, Separate, QueueOf, WithQueue;
      rc, item := q.Out(before);
      QueueFrame(q);
    }

    lemma WithSame(s: State, id: int)
      requires Shaped(s) && 0 <= id < QUEUES
      ensures WithQueue(s, id, QueueOf(s, id)) == s
    {
      var i, j := id - MUTEX_WAITS, id - SEM_WAITS;
      if 0 <= i < MUTEX_MAX { assert s.mutexes[i := s.mutexes[i]] == s.mutexes; }
      if 0 <= j { assert s.sems[j := s.sems[j]] == s.sems; }
    }

    // ---- The process table (src/kproc.c) ----

    method PidToProcNoValidityCheck(pid: int) returns (p: Process?)
      requires Valid()
      ensures InTable(p) && EntryOf(p) == FindPid(View().procs, pid, 0)
    {
      p := null;
      var i := 0;
      while i < PROC_MAX
        invariant 0 <= i <= PROC_MAX && p == null
        invariant FindPid(View().procs, pid, 0) == FindPid(View().procs, pid, i)
      {
        assert View().procs[i].pid == procTable[i].pid;
        if procTable[i].pid == pid {
          p := procTable[i];
          break;
        }
        i := i + 1;
      }
    }

    method PidToProc(pid: int) returns (p: Process?)
      requires Valid()
      ensures InTable(p) && EntryOf(p) == Machine.PidToProc(View().procs, pid)
    {
      p := PidToProcNoValidityCheck(pid);
      if p == null {
        return null;
      }
      assert View().procs[p.entry] == p.View();
      if p.state == NONE {
        return null;
      }
    }

    method ProcToEntry(p: Process) returns (entry: int)
      requires Valid()
      ensures entry == (if InTable(p) then p.entry else -1)
    {
      entry := -1;
      var i := 0;
      while i < PROC_MAX
        invariant 0 <= i <= PROC_MAX && entry == -1
        invariant InTable(p) ==> i <= p.entry
      {
        if procTable[i] == p {
          entry := i;
          break;
        }
        i := i + 1;
      }
    }

    // ---- The scheduler (src/scheduler.c) ----

    method SchedulerAdd(p: Process)
      requires Valid() && InTable(p)
      modifies Repr
      ensures Valid() && View() == Machine.SchedulerAdd(old(View()), p.entry)
    {
      hide Valid, View, Separate, ConsoleOk, IoOk;
      Parts();
      ProcessPart(p);
      var _ := QueueIn(runQueue, p.pid);
      SetState(p, IDLE);
    }

    method SetState(p: Process, st: ProcState)
      requires Valid() && InTable(p)
      modifies p
      ensures Valid() && View() == old(View()).(procs := Machine.SetState(old(View()).procs, p.entry, st))
    {
      hide Valid, View, Separate, ConsoleOk, IoOk;
      ProcessPart(p);
      p.state := st;
      assert p.View() == old(p.View()).(state := st);
      ProcessFrame(p);
    }

    method SetActive(p: Process?)
      requires Valid() && InTable(p)
      modifies this`active
      ensures Valid() && active == p && View() == old(View()).(active := EntryOf(p))
    {
      hide Valid, View, Separate, ConsoleOk, IoOk;
      Parts();
      active := p;
      SelfFrame();
    }

    // Pids are never -1, which is how the C code tells an item from a failed read.
    method RemoveItemFromQueue(q: Queue, item: int) returns (found: bool)
      requires q.Valid() && NULL !in q.contents
      modifies q, q.items
      ensures q.Valid()
      ensures found == (item in old(q.contents))
      ensures q.contents == Without(old(q.contents), item)
    {
      hide IndexOf, Without;
      ghost var all := q.contents;
      var i := 0;
      assert Rotated(all, 0) == all;
      while i < q.size
        invariant q.Valid() && 0 <= i <= |all|
        invariant q.contents == Rotated(all, i)
        invariant item !in all[..i]
        decreases |all| - i
      {
        RotateOne(all, i);
        hide Rotated;
        var rc, current := q.Out(NULL);
        assert rc == 0 && current != NULL;
        if current == item {
          WithoutAt(all, item, i);
          return true;
        }
        var _ := q.In(current);
        i := i + 1;
      }
      assert all[..i] == all && Rotated(all, i) == all;
      WithoutAbsent(all, item);
      found := false;
    }

    method RemoveItem(q: Queue, item: int) returns (found: bool)
      requires Valid() && Has(q) && NULL !in QueueOf(View(), q.id)
      modifies Repr
      ensures Valid()
      ensures found == (item in QueueOf(old(View()), q.id))
      ensures View() == WithQueue(old(View()), q.id, Without(QueueOf(old(View()), q.id), item))
    {
      QueuePart(q);
      hide Valid, View, Separate, QueueOf, WithQueue;
      found := RemoveItemFromQueue(q, item);
      QueueFrame(q);
    }

    method SchedulerRemove(p: Process)
      requires Valid() && InTable(p)
      requires NULL !in View().runQ && NULL !in View().sleepQ
      modifies Repr
      ensures Valid() && View() == Machine.SchedulerRemove(old(View()), p.entry)
    {
      hide Valid, View, Separate, ConsoleOk, IoOk, Without;
      Parts();
      ProcessPart(p);
      var _ := RemoveItem(runQueue, p.pid);
      ProcessPart(p);
      var _ := RemoveItem(sleepQueue, p.pid);
      ProcessPart(p);
      Parts();
      if active != null { ProcessPart(active); }
      if active != null && active.pid == p.pid {
        SetActive(null);
      }
    }

    method StartSleep(p: Process, seconds: int)
      requires Valid() && InTable(p)
      modifies p
      ensures Valid() && View() == old(View()).(procs := old(View()).procs[p.entry :=
        old(View()).procs[p.entry].(sleepTime := TICKS_PER_SECOND * seconds, state := SLEEPING)])
    {
      hide Valid, View, Separate, ConsoleOk, IoOk;
      ProcessPart(p);
      p.sleepTime := TICKS_PER_SECOND * seconds;
      p.state := SLEEPING;
      assert p.View() == old(p.View()).(sleepTime := TICKS_PER_SECOND * seconds, state := SLEEPING);
      ProcessFrame(p);
    }

    method SchedulerSleep(p: Process, seconds: int)
      requires Valid() && InTable(p)
      requires NULL !in View().runQ && NULL !in View().sleepQ
      modifies Repr
      ensures Valid() && View() == Machine.SchedulerSleep(old(View()), p.entry, seconds)
    {
      hide Valid, View, Separate, ConsoleOk, IoOk, Without, Enqueue;
      Parts();
      ProcessPart(p);
      StartSleep(p, seconds);
      ghost var s := View();
      assert s.procs[p.entry].pid == old(View()).procs[p.entry].pid;
      ProcessPart(p);
      var found := RemoveItem(runQueue, p.pid);
      Parts();
      ProcessPart(p);
      if found {
        var _ := QueueIn(sleepQueue, p.pid);
        return;
      }
      WithoutAbsent(s.runQ, p.pid);
      assert View() == s;
      if active != null && active == p {
        var _ := QueueIn(sleepQueue, p.pid);
        SetActive(null);
        return;
      }
      found := RemoveItem(sleepQueue, p.pid);
      ProcessPart(p);
      if found {
        var _ := QueueIn(sleepQueue, p.pid);
        return;
      }
      WithoutAbsent(s.sleepQ, p.pid);
    }

    method SchedulerRun()
      requires Valid() && Dispatch(Preempt(View())).active != NULL
      modifies Repr
      ensures Valid() && active != null && View() == Machine.SchedulerRun(old(View()))
    {
      hide Valid, View, Separate, ConsoleOk, IoOk, Preempt, Dispatch;
      PreemptExpired();
      DispatchIfIdle();
      Parts();
      ProcessPart(active);
      SetState(active, ACTIVE);
    }

    method ResetSlice(p: Process)
      requires Valid() && InTable(p)
      modifies p
      ensures Valid() && View() == old(View()).(procs := old(View()).procs[p.entry :=
        old(View()).procs[p.entry].(cpuTime := 0)])
    {
      hide Valid, View, Separate, ConsoleOk, IoOk;
      ProcessPart(p);
      p.cpuTime := 0;
      assert p.View() == old(p.View()).(cpuTime := 0);
      ProcessFrame(p);
    }

    method PreemptExpired()
      requires Valid()
      modifies Repr
      ensures Valid() && View() == Preempt(old(View()))
    {
      hide Valid, View, Separate, ConsoleOk, IoOk, Preempt;
      Parts();
      StaysOn(View());
      if active != null {
        ProcessPart(active);
        if active.cpuTime >= SCHEDULER_TIMESLICE {
          PreemptActive();
        }
      }
    }

    method DispatchIfIdle()
      requires Valid()
      modifies Repr
      ensures Valid() && View() == Dispatch(old(View()))
    {
      hide Valid, View, Separate, ConsoleOk, IoOk, Dispatch;
      Parts();
      StaysOn(View());
      if active == null {
        DispatchNext();
      }
    }

    method PreemptActive()
      requires Valid() && active != null && active.cpuTime >= SCHEDULER_TIMESLICE
      modifies Repr
      ensures Valid() && View() == Preempt(old(View()))
    {
      hide Valid, View, Separate, ConsoleOk, IoOk, Enqueue;
      ghost var s := View();
      Parts();
      ProcessPart(active);
      ResetSlice(active);
      Parts();
      ProcessPart(active);
      if active.pid != 0 {
        var _ := QueueIn(runQueue, active.pid);
      }
      Parts();
      UpdateTwice(s.procs, s.active, s.procs[s.active].(cpuTime := 0), s.procs[s.active].(cpuTime := 0, state := IDLE));
      SetState(active, IDLE);
      SetActive(null);
    }

    method DispatchNext()
      requires Valid() && active == null
      modifies Repr
      ensures Valid() && View() == Dispatch(old(View()))
    {
      hide Valid, View, Separate, ConsoleOk, IoOk, Machine.PidToProc;
      Parts();
      var next := NULL;
      var rc;
      rc, next := QueueOut(runQueue, next);
      var p;
      if next == NULL {
        // An empty queue leaves next as it was: run the idle task.
        p := PidToProc(0);
      } else {
        p := PidToProc(next);
      }
      SetActive(p);
    }

    method SchedulerTimer()
      requires Valid() && Between(View())
      modifies Repr
      ensures Valid() && View() == Machine.SchedulerTimer(old(View()))
    {
      hide Valid, View, Separate, ConsoleOk, IoOk, TableOk, Located, SlotsOk, CpuOk, MutexesOk, SemsOk;
      hide Machine.WakeSleepers;
      Parts();
      ChargeKeeps(View());
      if active != null {
        ProcessPart(active);
        Charge(active);
      }
      WakeSleepers();
    }

    // The loop of scheduler_timer, whose bound shrinks as sleepers wake.
    method WakeSleepers()
      requires Valid() && Inv(View())
      modifies Repr
      ensures Valid() && View() == Machine.WakeSleepers(old(View()))
    {
      hide Valid, View, Separate, ConsoleOk, IoOk, TableOk, Located, SlotsOk, CpuOk, MutexesOk, SemsOk;
      ghost var s := View();
      ghost var q := s.sleepQ;
      PassStart(s);
      assert q[..0] == [];
      var i := 0;
      while SleepersLeft(i)
        invariant Valid() && 0 <= i <= |q|
        invariant View() == PassState(s, i)
        invariant Visits(s.procs, q, i, |Expired(s.procs, q[..i])|) == Visited(s)
        decreases |q| - i
      {
        PassGoesOn(s, i, |Expired(s.procs, q[..i])|);
        PassStep(s, i);
        hide PassState, Visits, Expired, Turn, CanTurn;
        WakeOrKeep();
        i := i + 1;
      }
      PassGoesOn(s, i, |Expired(s.procs, q[..i])|);
    }

    // The body of the loop: the head of the sleep queue loses a tick and wakes or goes to the tail.
    method WakeOrKeep()
      requires Valid() && CanTurn(View())
      modifies Repr
      ensures Valid() && View() == Turn(old(View()))
    {
      hide Valid, View, Separate, ConsoleOk, IoOk, Enqueue, Machine.PidToProc;
      Parts();
      var rc, pid := QueueOut(sleepQueue, -1);
      assert rc == 0;
      var p := PidToProc(pid);
      ProcessPart(p);
      TakeTick(p);
      ProcessPart(p);
      if p.sleepTime <= 0 {
        var _ := QueueIn(runQueue, pid);
      } else {
        var _ := QueueIn(sleepQueue, pid);
      }
    }

    predicate SleepersLeft(i: int)
      reads this, Repr
      requires Valid()
      ensures SleepersLeft(i) <==> i < |View().sleepQ|
    {
      Parts();
      QueuePart(sleepQueue);
      assert QueueOf(View(), SLEEP_QUEUE) == View().sleepQ;
      i < sleepQueue.size
    }

    method Charge(p: Process)
      requires Valid() && InTable(p)
      modifies p
      ensures Valid() && View() == old(View()).(procs := old(View()).procs[p.entry :=
        old(p.View()).(runTime := old(p.runTime) + 1, cpuTime := old(p.cpuTime) + 1)])
    {
      hide Valid, View, Separate, ConsoleOk, IoOk;
      ProcessPart(p);
      p.runTime := p.runTime + 1;
      p.cpuTime := p.cpuTime + 1;
      assert p.View() == old(p.View()).(runTime := old(p.runTime) + 1, cpuTime := old(p.cpuTime) + 1);
      ProcessFrame(p);
    }

    method TakeTick(p: Process)
      requires Valid() && InTable(p)
      modifies p
      ensures p.sleepTime == old(p.sleepTime) - 1
      ensures Valid() && View() == old(View()).(procs := old(View()).procs[p.entry :=
        old(View()).procs[p.entry].(sleepTime := old(View()).procs[p.entry].sleepTime - 1)])
    {
      hide Valid, View, Separate, ConsoleOk, IoOk;
      ProcessPart(p);
      p.sleepTime := p.sleepTime - 1;
      assert p.View() == old(p.View()).(sleepTime := old(p.sleepTime) - 1);
      ProcessFrame(p);
    }

    // ---- Creating and destroying processes (src/kproc.c) ----

    lemma TableAt(e: int)
      requires Valid() && 0 <= e < PROC_MAX
      ensures |procTable| == PROC_MAX && procTable[e].entry == e && InTable(procTable[e])
    {
      hide ConsoleOk, TtyOk;
    }

    // stack is what the slot's stack memory holds where the frame will be.
    method KprocCreate(entry: int, stack: Frame) returns (pid: int)
      requires Valid() && (View().procFree != [] ==> 0 <= View().procFree[0] < PROC_MAX)
      modifies Repr
      ensures Valid() && (View(), pid) == Machine.KprocCreate(old(View()), entry, stack)
    {
      hide Valid, View, Separate, ConsoleOk, IoOk, Enqueue, Machine.SchedulerAdd;
      Parts();
      var rc, slot := QueueOut(procAllocator, -1);
      if rc != 0 {
        return -1;
      }
      var p := procTable[slot];
      TableAt(slot);
      InitProcess(p, entry, stack);
      AddedPid(View(), slot);
      SchedulerAdd(p);
      ProcessPart(p);
      pid := p.pid;
    }

    method InitProcess(p: Process, entry: int, stack: Frame)
      requires Valid() && InTable(p)
      modifies Repr
      ensures var s := old(View());
        Valid() && View() == s.(procs := s.procs[p.entry :=
          Proc(s.nextPid, IDLE, s.ticks, 0, 0, 0, NO_IO, stack.(eip := entry))], nextPid := s.nextPid + 1)
    {
      hide Valid, View, Separate, ConsoleOk, IoOk;
      Parts();
      ProcessPart(p);
      ghost var s := View();
      p.Clear();
      p.pid := nextPid;
      p.state := IDLE;
      p.startTime := ticks;
      p.frame := stack.(eip := entry);
      assert p.View() == Proc(s.nextPid, IDLE, s.ticks, 0, 0, 0, NO_IO, stack.(eip := entry));
      ProcessFrame(p);
      AdvancePid();
    }

    method AdvancePid()
      requires Valid()
      modifies this`nextPid
      ensures Valid() && View() == old(View()).(nextPid := old(View()).nextPid + 1)
    {
      hide Valid, View, Separate, ConsoleOk, IoOk;
      Parts();
      nextPid := nextPid + 1;
      SelfFrame();
    }

    method KprocDestroy(p: Process) returns (rc: int)
      requires Valid() && InTable(p) && NULL !in View().runQ && NULL !in View().sleepQ
      modifies Repr
      ensures Valid() && (View(), rc) == Machine.KprocDestroy(old(View()), p.entry)
    {
      hide Valid, View, Separate, ConsoleOk, IoOk, Machine.SchedulerRemove, Enqueue;
      ProcessPart(p);
      if p.pid == 0 {
        return -1;
      }
      SchedulerRemove(p);
      rc := FreeEntry(p);
    }

    method FreeEntry(p: Process) returns (rc: int)
      requires Valid() && InTable(p)
      modifies Repr
      ensures Valid()
      ensures var s, e := old(View()), p.entry;
        && View() == s.(active := if s.active == e then NULL else s.active,
                        procs := s.procs[e := FREE_PROC], procFree := Enqueue(s.procFree, e))
        && rc == (if |s.procFree| < QUEUE_SIZE then 0 else -1)
    {
      hide Valid, View, Separate, ConsoleOk, IoOk, Enqueue;
      Parts();
      ProcessPart(p);
      QueuePart(procAllocator);
      if p == active {
        SetActive(null);
      }
      ClearEntry(p);
      var entry := ProcToEntry(p);
      rc := QueueIn(procAllocator, entry);
    }

    method ClearEntry(p: Process)
      requires Valid() && InTable(p)
      modifies p
      ensures Valid() && View() == old(View()).(procs := old(View()).procs[p.entry := FREE_PROC])
    {
      hide Valid, View, Separate, ConsoleOk, IoOk;
      ProcessPart(p);
      p.Clear();
      assert p.View() == FREE_PROC;
      ProcessFrame(p);
    }

    // ---- Mutexes (src/kmutex.c) ----

    method KmutexInit() returns (id: int)
      requires Valid()
      modifies Repr
      ensures Valid() && (View(), id) == Machine.KmutexInit(old(View()))
    {
      hide Valid, View, Separate, ConsoleOk, IoOk;
      Parts();
      var rc;
      rc, id := QueueOut(mutexQueue, -1);
      if rc == -1 {
        return -1;
      }
      if id < 0 || id >= MUTEX_MAX {
        return -1;
      }
      ResetMutex(id, true);
    }

    method ResetMutex(id: int, taken: bool)
      requires Valid() && 0 <= id < MUTEX_MAX
      modifies Repr
      ensures Valid()
      ensures View() == old(View()).(mutexes := old(View()).mutexes[id := Mutex(taken, 0, NULL, [])])
    {
      hide Valid, View, Separate, ConsoleOk, IoOk;
      MutexPart(id);
      Parts();
      ghost var ms := View().mutexes;
      mutexes[id].isAllocated := taken;
      mutexes[id].locks := 0;
      mutexes[id].owner := null;
      MutexFrame(id);
      MutexPart(id);
      ghost var m := View().mutexes[id];
      UpdateTwice(ms, id, m, Mutex(taken, 0, NULL, []));
      QueueInit(mutexes[id].waitQueue);
    }

    method KmutexDestroy(id: int) returns (rc: int)
      requires Valid() && Inv(View())
      modifies Repr
      ensures Valid() && (View(), rc) == Machine.KmutexDestroy(old(View()), id)
    {
      hide Valid, View, Separate, ConsoleOk, IoOk, TableOk, Located, SlotsOk, CpuOk, SemsOk;
      Parts();
      if id < 0 || id >= MUTEX_MAX {
        return -1;
      }
      MutexPart(id);
      if !mutexes[id].isAllocated {
        return -1;
      }
      if mutexes[id].locks > 0 {
        // The error message reads the owner's pid.
        assert MutexLaw(View().mutexes[id]);
        assert mutexes[id].owner != null;
        return -1;
      }
      hide Inv, MutexesOk;
      var _ := QueueIn(mutexQueue, id);
      ReleaseMutex(id);
      rc := 0;
    }

    method ReleaseMutex(id: int)
      requires Valid() && 0 <= id < MUTEX_MAX
      modifies Repr
      ensures Valid()
      ensures var m := old(View()).mutexes[id];
        View() == old(View()).(mutexes := old(View()).mutexes[id := m.(isAllocated := false)])
    {
      hide Valid, View, Separate, ConsoleOk, IoOk;
      Parts();
      MutexPart(id);
      mutexes[id].isAllocated := false;
      MutexFrame(id);
    }

    method KmutexLock(id: int) returns (rc: int)
      requires Valid() && active != null && NULL !in View().runQ && NULL !in View().sleepQ
      modifies Repr
      ensures Valid() && (View(), rc) == Machine.KmutexLock(old(View()), id)
    {
      hide Valid, View, Separate, ConsoleOk, IoOk, Without, Enqueue, Machine.SchedulerRemove;
      Parts();
      if id < 0 || id >= MUTEX_MAX {
        return -1;
      }
      MutexPart(id);
      if !mutexes[id].isAllocated {
        return -1;
      }
      LockSteps(View(), id);
      if mutexes[id].locks > 0 {
        WaitForMutex(id);
      } else {
        SetOwner(id, active);
      }
      hide Machine.KmutexLock;
      AddLock(id);
      MutexPart(id);
      rc := mutexes[id].locks;
    }

    method WaitForMutex(id: int)
      requires Valid() && active != null && NULL !in View().runQ && NULL !in View().sleepQ && 0 <= id < MUTEX_MAX
      modifies Repr
      ensures Valid()
      ensures var s := old(View()); var m := s.mutexes[id];
        View() == Machine.SchedulerRemove(s.(
          mutexes := s.mutexes[id := m.(wait := Enqueue(m.wait, s.procs[s.active].pid))],
          procs := Machine.SetState(s.procs, s.active, WAITING)), s.active)
    {
      hide Valid, View, Separate, ConsoleOk, IoOk, Without, Enqueue, Machine.SchedulerRemove;
      Parts();
      ProcessPart(active);
      MutexPart(id);
      var _ := QueueIn(mutexes[id].waitQueue, active.pid);
      Parts();
      SetState(active, WAITING);
      Parts();
      SchedulerRemove(active);
    }

    method KmutexUnlock(id: int) returns (rc: int)
      requires Valid() && Inv(View())
      modifies Repr
      ensures Valid() && (View(), rc) == Machine.KmutexUnlock(old(View()), id)
    {
      hide Valid, View, Separate, ConsoleOk, IoOk, Inv, Machine.PidToProc, Enqueue, Machine.SchedulerAdd;
      Parts();
      if id < 0 || id >= MUTEX_MAX {
        return -1;
      }
      MutexPart(id);
      if !mutexes[id].isAllocated {
        return -1;
      }
      if mutexes[id].locks == 0 {
        return 0;
      }
      NextWaiter(View(), id);
      UnlockSteps(View(), id);
      hide Machine.KmutexUnlock;
      DropLock(id);
      MutexPart(id);
      if mutexes[id].locks == 0 {
        SetOwner(id, null);
      } else {
        GrantNext(id);
      }
      MutexPart(id);
      rc := mutexes[id].locks;
    }

    method DropLock(id: int)
      requires Valid() && 0 <= id < MUTEX_MAX
      modifies Repr
      ensures Valid()
      ensures var m := old(View()).mutexes[id];
        View() == old(View()).(mutexes := old(View()).mutexes[id := m.(locks := m.locks - 1)])
    {
      hide Valid, View, Separate, ConsoleOk, IoOk;
      Parts();
      MutexPart(id);
      mutexes[id].locks := mutexes[id].locks - 1;
      MutexFrame(id);
    }

    // The process at the head of the wait queue takes the mutex.
    method GrantNext(id: int)
      requires Valid() && 0 <= id < MUTEX_MAX
      requires var q := View().mutexes[id].wait; q != [] && Machine.PidToProc(View().procs, q[0]) > 0
      modifies Repr
      ensures Valid() && View().mutexes[id].locks == old(View()).mutexes[id].locks
      ensures var s := old(View()); var q := s.mutexes[id].wait; var e := Machine.PidToProc(s.procs, q[0]);
        View() == Machine.SchedulerAdd(s.(mutexes := s.mutexes[id := s.mutexes[id].(owner := e, wait := q[1..])]), e)
    {
      hide Valid, View, Separate, ConsoleOk, IoOk, Machine.PidToProc, Enqueue;
      MutexPart(id);
      ghost var s := View();
      ghost var q := s.mutexes[id].wait;
      var rc, pid := QueueOut(mutexes[id].waitQueue, -1);
      // The branch for a failed read cannot be taken.
      assert rc != -1;
      var p := PidToProc(pid);
      SchedulerAdd(p);
      UpdateTwice(s.mutexes, id, s.mutexes[id].(wait := q[1..]), s.mutexes[id].(owner := p.entry, wait := q[1..]));
      SetOwner(id, p);
    }

    method SetOwner(id: int, p: Process?)
      requires Valid() && 0 <= id < MUTEX_MAX && InTable(p)
      modifies Repr
      ensures Valid()
      ensures var m := old(View()).mutexes[id];
        View() == old(View()).(mutexes := old(View()).mutexes[id := m.(owner := EntryOf(p))])
    {
      hide Valid, View, Separate, ConsoleOk, IoOk;
      Parts();
      MutexPart(id);
      mutexes[id].owner := p;
      MutexFrame(id);
    }

    method AddLock(id: int)
      requires Valid() && 0 <= id < MUTEX_MAX
      modifies Repr
      ensures Valid() && active == old(active)
      ensures var m := old(View()).mutexes[id];
        View() == old(View()).(mutexes := old(View()).mutexes[id := m.(locks := m.locks + 1)])
    {
      hide Valid, View, Separate, ConsoleOk, IoOk;
      Parts();
      MutexPart(id);
      mutexes[id].locks := mutexes[id].locks + 1;
      MutexFrame(id);
      Parts();
    }

    // ---- Semaphores (src/ksem.c) ----

    method KsemInit(value: int) returns (id: int)
      requires Valid()
      modifies Repr
      ensures Valid() && (View(), id) == Machine.KsemInit(old(View()), value)
    {
      hide Valid, View, Separate, ConsoleOk, IoOk;
      Parts();
      var rc;
      rc, id := QueueOut(semQueue, -1);
      if rc == -1 {
        return -1;
      }
      if id < 0 || id >= SEM_MAX {
        return -1;
      }
      ResetSem(id, true, value);
    }

    // memset over the record, its wait queue included, and then the fields.
    method ResetSem(id: int, taken: bool, value: int)
      requires Valid() && 0 <= id < SEM_MAX
      modifies Repr
      ensures Valid()
      ensures View() == old(View()).(sems := old(View()).sems[id := Sem(taken, value, [])])
    {
      hide Valid, View, Separate, ConsoleOk, IoOk;
      SemPart(id);
      Parts();
      ghost var ms := View().sems;
      semaphores[id].isAllocated := taken;
      semaphores[id].count := value;
      SemFrame(id);
      SemPart(id);
      ghost var m := View().sems[id];
      UpdateTwice(ms, id, m, Sem(taken, value, []));
      QueueInit(semaphores[id].waitQueue);
    }

    // Always -1, as the code has it.
    method KsemDestroy(id: int) returns (rc: int)
      requires Valid()
      modifies Repr
      ensures Valid() && (View(), rc) == Machine.KsemDestroy(old(View()), id)
    {
      hide Valid, View, Separate, ConsoleOk, IoOk, Enqueue;
      Parts();
      if id < 0 || id >= SEM_MAX {
        return -1;
      }
      SemPart(id);
      if !semaphores[id].isAllocated {
        return -1;
      }
      if semaphores[id].count == 0 {
        return -1;
      }
      var _ := QueueIn(semQueue, id);
      ResetSem(id, false, 0);
      rc := -1;
    }

    method KsemWait(id: int) returns (rc: int)
      requires Valid() && active != null && NULL !in View().runQ && NULL !in View().sleepQ
      modifies Repr
      ensures Valid() && (View(), rc) == Machine.KsemWait(old(View()), id)
    {
      hide Valid, View, Separate, ConsoleOk, IoOk, Machine.SchedulerRemove, Enqueue;
      Parts();
      if id < 0 || id >= SEM_MAX {
        return -1;
      }
      SemPart(id);
      if !semaphores[id].isAllocated {
        return -1;
      }
      if semaphores[id].count == 0 {
        WaitForSem(id, active);
        return 0;
      }
      AddCount(id, -1);
      SemPart(id);
      rc := semaphores[id].count;
    }

    method WaitForSem(id: int, p: Process)
      requires Valid() && active == p && NULL !in View().runQ && NULL !in View().sleepQ && 0 <= id < SEM_MAX
      modifies Repr
      ensures Valid()
      ensures var s := old(View()); var m := s.sems[id];
        View() == Machine.SchedulerRemove(s.(
          sems := s.sems[id := m.(wait := Enqueue(m.wait, s.procs[s.active].pid))],
          procs := Machine.SetState(s.procs, s.active, WAITING)), s.active)
    {
      hide Valid, View, Separate, ConsoleOk, IoOk, Without, Enqueue, Machine.SchedulerRemove;
      Parts();
      ProcessPart(p);
      SetState(p, WAITING);
      ProcessPart(p);
      SemPart(id);
      var _ := QueueIn(semaphores[id].waitQueue, p.pid);
      SchedulerRemove(p);
    }

    method AddCount(id: int, delta: int)
      requires Valid() && 0 <= id < SEM_MAX
      modifies Repr
      ensures Valid()
      ensures var m := old(View()).sems[id];
        View() == old(View()).(sems := old(View()).sems[id := m.(count := m.count + delta)])
    {
      hide Valid, View, Separate, ConsoleOk, IoOk;
      Parts();
      SemPart(id);
      semaphores[id].count := semaphores[id].count + delta;
      SemFrame(id);
    }

    method KsemPost(id: int) returns (rc: int)
      requires Valid() && Inv(View())
      modifies Repr
      ensures Valid() && (View(), rc) == Machine.KsemPost(old(View()), id)
    {
      hide Valid, View, Separate, ConsoleOk, IoOk, Inv, Machine.PidToProc, Enqueue, Machine.SchedulerAdd;
      Parts();
      if id < 0 || id >= SEM_MAX {
        return -1;
      }
      SemPart(id);
      if !semaphores[id].isAllocated {
        return -1;
      }
      NextPosted(View(), id);
      PostSteps(View(), id);
      hide Machine.KsemPost;
      AddCount(id, 1);
      SemPart(id);
      if !semaphores[id].waitQueue.IsEmpty() {
        WakeNext(id);
      }
      SemPart(id);
      rc := semaphores[id].count;
    }

    // The process at the head of the wait queue goes on, and takes the unit with it.
    method WakeNext(id: int)
      requires Valid() && 0 <= id < SEM_MAX
      requires var q := View().sems[id].wait; q != [] && Machine.PidToProc(View().procs, q[0]) > 0
      modifies Repr
      ensures Valid() && View().sems[id].count == old(View()).sems[id].count - 1
      ensures var s := old(View()); var m := s.sems[id]; var e := Machine.PidToProc(s.procs, m.wait[0]);
        View() == Machine.SchedulerAdd(s.(sems := s.sems[id := m.(count := m.count - 1, wait := m.wait[1..])]), e)
    {
      hide Valid, View, Separate, ConsoleOk, IoOk, Machine.PidToProc, Enqueue;
      SemPart(id);
      ghost var s := View();
      ghost var m := s.sems[id];
      var rc, pid := QueueOut(semaphores[id].waitQueue, -1);
      // The branch for a failed read cannot be taken.
      assert rc != -1;
      var p := PidToProc(pid);
      SchedulerAdd(p);
      UpdateTwice(s.sems, id, m.(wait := m.wait[1..]), m.(count := m.count - 1, wait := m.wait[1..]));
      AddCount(id, -1);
    }

    // ---- System calls (src/ksyscall.c) ----

    twostate lemma IoFrame(b: RingBuf)
      requires old(Valid()) && console.HasBuffer(b) && b.Valid()
      requires forall o: object :: o in Repr && o != b && o != b.data ==> unchanged(o)
      ensures Valid() && View() == old(View()).(con := SetBuffer(old(View()).con, b.id, b.contents))
    {
      hide ConsoleOk, TtyOk, SetBuffer;
      console.BufferFrame(b);
      console.BufferParts(b);
      ConsoleFrame();
    }

    method IoWrite(io: int, mem: array<Char>, size: int) returns (rc: int)
      requires Valid() && active != null && io != PROC_IO_MAX && 0 <= size <= mem.Length
      modifies Repr
      ensures Valid() && (View(), rc) == Machine.IoWrite(old(View()), io, old(mem[..]), size)
    {
      hide Valid, View, Separate, ConsoleOk, IoOk, SetBuffer;
      if io > PROC_IO_MAX || io < 0 {
        return -1;
      }
      Parts();
      ProcessPart(active);
      var b := active.io[io];
      if b != null {
        console.BufferParts(b);
        var _ := b.WriteMem(mem[..], size);
        IoFrame(b);
        return size;
      }
      rc := -1;
    }

    method IoRead(io: int, mem: array<Char>, size: int) returns (rc: int)
      requires Valid() && active != null && 0 <= io < PROC_IO_MAX && 0 <= size <= mem.Length && mem !in Repr
      modifies Repr, mem
      ensures Valid() && (View(), rc) == Machine.IoRead(old(View()), io, size)
      ensures var d := Delivered(old(View()), io, size);
        |d| <= mem.Length && mem[..] == d + old(mem[|d|..])
    {
      hide Valid, View, Separate, ConsoleOk, IoOk, SetBuffer;
      Parts();
      ProcessPart(active);
      var b := active.io[io];
      if b == null {
        return -1;
      }
      console.BufferParts(b);
      rc := b.ReadMem(mem, size);
      IoFrame(b);
      assert mem[..] == mem[..rc] + mem[rc..];
    }

    method IoFlush(io: int) returns (rc: int)
      requires Valid() && active != null && io != PROC_IO_MAX
      modifies Repr
      ensures Valid() && (View(), rc) == Machine.IoFlush(old(View()), io)
    {
      hide Valid, View, Separate, ConsoleOk, IoOk, SetBuffer;
      if io > PROC_IO_MAX || io < 0 {
        return -1;
      }
      Parts();
      ProcessPart(active);
      var b := active.io[io];
      if b != null {
        console.BufferParts(b);
        var _ := b.Flush();
        IoFrame(b);
        return 0;
      }
      rc := -1;
    }

    // The calls that give a result: the switch of ksyscall_irq_handler without exit and sleep.
    method Serve(f: Frame, mem: array<Char>) returns (rc: int)
      requires Valid() && Between(View()) && CallOk(f, mem[..]) && mem !in Repr
      requires f.eax != SYS_EXIT && f.eax != SYS_SLEEP
      modifies Repr, mem
      ensures Valid() && (View(), rc) == Machine.Call(old(View()), f, old(mem[..]))
      ensures f.eax != SYS_IO_READ ==> mem[..] == old(mem[..])
      ensures f.eax == SYS_IO_READ ==>
        var d := Delivered(old(View()), f.ebx, f.edx); |d| <= mem.Length && mem[..] == d + old(mem[|d|..])
    {
      hide Valid, View, Separate, ConsoleOk, IoOk, TableOk, Located, SlotsOk, CpuOk, MutexesOk, SemsOk, Delivered;
      hide Machine.IoRead, Machine.IoWrite, Machine.IoFlush, Machine.KmutexInit, Machine.KmutexDestroy, Machine.KmutexLock;
      hide Machine.KmutexUnlock, Machine.KsemInit, Machine.KsemDestroy, Machine.KsemWait, Machine.KsemPost;
      Parts();
      ProcessPart(active);
      NullNotQueued(View());
      match f.eax {
        case 1 => rc := IoRead(f.ebx, mem, f.edx);
        case 2 => rc := IoWrite(f.ebx, mem, f.edx);
        case 3 => rc := IoFlush(f.ebx);
        case 4 => rc := ticks / TICKS_PER_SECOND;
        case 5 => rc := if f.ebx == 0 then -1 else 0;
        case 8 => rc := if active.pid == 0 then -1 else active.pid;
        case 9 => rc := if f.ebx == 0 then -1 else 0;
        case 10 => rc := KmutexInit();
        case 11 => rc := KmutexDestroy(f.ebx);
        case 12 => rc := KmutexLock(f.ebx);
        case 13 => rc := KmutexUnlock(f.ebx);
        case 14 => rc := KsemInit(f.ebx);
        case 15 => rc := KsemDestroy(f.ebx);
        case 16 => rc := KsemWait(f.ebx);
        case _ => rc := KsemPost(f.ebx);
      }
    }

    method SetEax(p: Process, value: int)
      requires Valid() && InTable(p)
      modifies p
      ensures Valid() && View() == old(View()).(procs := Machine.SetEax(old(View()).procs, p.entry, value))
    {
      hide Valid, View, Separate, ConsoleOk, IoOk;
      ProcessPart(p);
      p.frame := p.frame.(eax := value);
      assert p.View() == old(p.View()).(frame := old(p.frame).(eax := value));
      ProcessFrame(p);
    }

    method SyscallIrq(mem: array<Char>)
      requires Valid() && Between(View()) && mem !in Repr
      requires CallOk(View().procs[View().active].frame, mem[..])
      modifies Repr, mem
      ensures Valid() && View() == Machine.SyscallIrq(old(View()), old(mem[..]))
      ensures var f := old(View()).procs[old(View()).active].frame;
        if f.eax == SYS_IO_READ then
          var d := Delivered(old(View()), f.ebx, f.edx); |d| <= mem.Length && mem[..] == d + old(mem[|d|..])
        else mem[..] == old(mem[..])
    {
      hide Valid, View, Separate, ConsoleOk, IoOk, TableOk, Located, SlotsOk, CpuOk, MutexesOk, SemsOk, Delivered;
      hide CallOk, Call, Machine.KprocDestroy, Machine.SchedulerSleep;
      Parts();
      ProcessPart(active);
      NullNotQueued(View());
      var f := active.frame;
      var p := active;
      if f.eax == SYS_EXIT {
        var _ := KprocDestroy(active);
      } else if f.eax == SYS_SLEEP {
        SchedulerSleep(active, f.ebx);
      } else {
        var rc := Serve(f, mem);
        SetEax(p, rc);
      }
    }

    // ---- Interrupts (src/timer.c, src/keyboard.c, src/kernel.c) ----

    method TimerIrq()
      requires Valid() && Between(View())
      modifies Repr
      ensures Valid() && View() == Machine.TimerIrq(old(View()))
    {
      hide Valid, View, Separate, ConsoleOk, IoOk, TableOk, Located, SlotsOk, CpuOk, MutexesOk, SemsOk;
      hide Refresh, Machine.SchedulerTimer;
      Parts();
      ghost var s := View();
      CountTick();
      label counted:
      Parts();
      if ticks % REFRESH_INTERVAL == 0 {
        console.Refresh();
        ConsoleFrame@counted();
      }
      ConsoleKeeps(s, View().con, s.ticks + 1);
      SchedulerTimer();
    }

    method CountTick()
      requires Valid()
      modifies this`ticks
      ensures Valid() && View() == old(View()).(ticks := old(View()).ticks + 1)
    {
      hide Valid, View, Separate, ConsoleOk, IoOk;
      Parts();
      ticks := ticks + 1;
      SelfFrame();
    }

    method KeyboardIrq(key: Key)
      requires Valid() && Between(View())
      modifies Repr
      ensures Valid() && View() == Machine.KeyboardIrq(old(View()), key)
    {
      hide Valid, View, Separate, ConsoleOk, IoOk, TableOk, Located, SlotsOk, CpuOk, MutexesOk, SemsOk;
      hide Machine.KprocCreate, Machine.KprocDestroy, Select, Input;
      Parts();
      match key {
        case NoKey =>
        case NewProcess(entry, stack) =>
          if View().procFree != [] { FreeSlot(View()); }
          var _ := KprocCreate(entry, stack);
        case Quit =>
          NullNotQueued(View());
          var _ := KprocDestroy(active);
        case SelectTty(n) =>
          console.Select(n);
          ConsoleFrame();
        case Typed(c) =>
          console.Input(c);
          ConsoleFrame();
      }
    }

    // kernel_context_enter. mem is the caller's memory at the buffer argument of a read or write, which
    // changes by what a read receives; the frame returned is the one kernel_context_exit restores.
    method ContextEnter(ev: Event, mem: array<Char>) returns (resumed: Frame)
      requires Valid() && Between(View()) && Enabled(View(), ev) && mem !in Repr
      requires ev.Syscall? ==> ev.mem == mem[..]
      modifies Repr, mem
      ensures Valid() && Between(View()) && View() == Step(old(View()), ev)
      ensures resumed == View().procs[View().active].frame
      ensures var d := Received(old(View()), ev); |d| <= mem.Length && mem[..] == d + old(mem[|d|..])
    {
      hide Valid, View, Separate, ConsoleOk, IoOk, TableOk, Located, SlotsOk, CpuOk, MutexesOk, SemsOk;
      hide CallOk, Machine.TimerIrq, Machine.KeyboardIrq, Machine.SyscallIrq, Machine.SchedulerRun;
      ghost var s := View();
      Parts();
      HandleKeeps(s, ev);
      StepKeeps(s, ev);
      FrameKeeps(s, s.active, ev.frame);
      DeliveredIsReceived(s, ev);
      hide Received, Delivered;
      if active != null {
        ProcessPart(active);
        StoreFrame(active, ev.frame);
      }
      match ev {
        case Tick(_) => TimerIrq();
        case Keyboard(_, key) => KeyboardIrq(key);
        case Syscall(_, _) => SyscallIrq(mem);
      }
      assert View() == Handle(s, ev) && mem[..] == Received(s, ev) + old(mem[|Received(s, ev)|..]);
      hide Handle, SaveFrame;
      RunFindsSomebody(View());
      SchedulerRun();
      Parts();
      ProcessPart(active);
      resumed := active.frame;
    }

    method StoreFrame(p: Process, frame: Frame)
      requires Valid() && InTable(p)
      modifies p
      ensures Valid() && View() == old(View()).(procs := old(View()).procs[p.entry :=
        old(View()).procs[p.entry].(frame := frame)])
    {
      hide Valid, View, Separate, ConsoleOk, IoOk;
      ProcessPart(p);
      p.frame := frame;
      assert p.View() == old(p.View()).(frame := frame);
      ProcessFrame(p);
    }

    // ---- Boot (src/main.c and the init functions it calls) ----

    method KmutexesInit()
      requires Valid()
      modifies Repr
      ensures Valid() && View() == old(View()).(mutexes := Blank().mutexes, mutexFree := Blank().mutexFree)
    {
      hide Valid, View, Separate, ConsoleOk, IoOk;
      ghost var s := View();
      for i := 0 to MUTEX_MAX
        invariant Valid() && View() == s.(mutexes := View().mutexes)
        invariant forall j :: 0 <= j < i ==> View().mutexes[j] == Mutex(false, 0, NULL, [])
      {
        ResetMutex(i, false);
      }
      assert View().mutexes == Blank().mutexes;
      Parts();
      FillAllocator(mutexQueue, MUTEX_MAX);
    }

    method KsemaphoresInit()
      requires Valid()
      modifies Repr
      ensures Valid() && View() == old(View()).(sems := Blank().sems, semFree := Blank().semFree)
    {
      hide Valid, View, Separate, ConsoleOk, IoOk;
      ghost var s := View();
      for i := 0 to SEM_MAX
        invariant Valid() && View() == s.(sems := View().sems)
        invariant forall j :: 0 <= j < i ==> View().sems[j] == Sem(false, 0, [])
      {
        ResetSem(i, false, 0);
      }
      assert View().sems == Blank().sems;
      Parts();
      FillAllocator(semQueue, SEM_MAX);
    }

    // queue_init and one queue_in for each identifier.
    method FillAllocator(q: Queue, n: int)
      requires Valid() && Has(q) && 0 <= n <= QUEUE_SIZE
      modifies Repr
      ensures Valid() && View() == WithQueue(old(View()), q.id, seq(n, i => i))
    {
      hide Valid, View, Separate, ConsoleOk, IoOk;
      ghost var s := View();
      QueueInit(q);
      assert seq(0, j => j) == [];
      for i := 0 to n
        invariant Valid() && View() == WithQueue(s, q.id, seq(i, j => j))
      {
        WithTwice(s, q.id, seq(i, j => j), seq(i + 1, j => j));
        assert seq(i + 1, j => j) == seq(i, j => j) + [i];
        var _ := QueueIn(q, i);
      }
    }

    lemma WithTwice(s: State, id: int, a: seq<int>, b: seq<int>)
      requires Shaped(s) && 0 <= id < QUEUES
      ensures Shaped(WithQueue(s, id, a)) && QueueOf(WithQueue(s, id, a), id) == a
      ensures WithQueue(WithQueue(s, id, a), id, b) == WithQueue(s, id, b)
    {
      hide ConsoleOk;
      var i, j := id - MUTEX_WAITS, id - SEM_WAITS;
      if 0 <= i < MUTEX_MAX { UpdateTwice(s.mutexes, i, s.mutexes[i].(wait := a), s.mutexes[i].(wait := b)); }
      if 0 <= j { UpdateTwice(s.sems, j, s.sems[j].(wait := a), s.sems[j].(wait := b)); }
    }

    method KprocAttachTty(pid: int, tty: int) returns (rc: int)
      requires Valid()
      modifies Repr
      ensures Valid() && View() == AttachTty(old(View()), pid, tty)
      ensures rc == (if Machine.PidToProc(old(View()).procs, pid) != NULL && 0 <= tty < TTY_MAX then 0 else -1)
      ensures var s, e := old(View()), Machine.PidToProc(old(View()).procs, pid);
        if rc == 0 then
          View() == s.(procs := s.procs[e := s.procs[e].(io := [2 * tty, 2 * tty + 1] + s.procs[e].io[2..])])
        else View() == s
    {
      hide Valid, View, Separate, ConsoleOk, IoOk, Machine.PidToProc;
      AttachedIo(View(), pid, tty);
      hide AttachTty;
      Parts();
      var p := PidToProc(pid);
      var t := console.Get(tty);
      if p != null && t != null {
        ProcessPart(p);
        SetIo(p, tty, t);
        return 0;
      }
      rc := -1;
    }

    method SetIo(p: Process, tty: int, t: Terminal)
      requires Valid() && InTable(p) && 0 <= tty < |console.ttys| && console.ttys[tty] == t
      modifies p
      ensures Valid() && View() == old(View()).(procs := old(View()).procs[p.entry :=
        old(View()).procs[p.entry].(io := old(View()).procs[p.entry].io[0 := 2 * tty][1 := 2 * tty + 1])])
    {
      hide Valid, View, Separate, ConsoleOk, IoOk;
      Parts();
      ProcessPart(p);
      TtyParts(tty);
      p.io := p.io[0 := t.ioInput][1 := t.ioOutput];
      assert p.View().io == old(p.View()).io[0 := 2 * tty][1 := 2 * tty + 1];
      ProcessFrame(p);
    }

    lemma TtyParts(n: int)
      requires Valid() && 0 <= n < TTY_MAX
      ensures |console.ttys| == TTY_MAX
      ensures var t := console.ttys[n];
        console.HasBuffer(t.ioInput) && console.HasBuffer(t.ioOutput) && t.ioInput.id == 2 * n && t.ioOutput.id == 2 * n + 1
    {
      hide ConsoleOk, TtyOk;
      assert console.ttys[n].Valid();
    }

    method SpawnOne(entry: int, tty: int)
      requires Valid() && Between(View())
      modifies Repr
      ensures Valid() && Between(View()) && View() == Spawn(old(View()), entry, tty)
    {
      hide Valid, View, Separate, ConsoleOk, IoOk, TableOk, Located, SlotsOk, CpuOk, MutexesOk, SemsOk;
      hide Machine.KprocCreate, AttachTty;
      if View().procFree != [] { FreeSlot(View()); }
      CreateKeeps(View(), entry, EMPTY_FRAME);
      var pid := KprocCreate(entry, EMPTY_FRAME);
      var n := if tty == BY_PARITY then TTY_MAX - 1 - pid % 2 else tty;
      AttachKeeps(View(), pid, n);
      var _ := KprocAttachTty(pid, n);
    }

    // The shells, then ping and pong three times each.
    method SpawnJobs(jobs: seq<(int, int)>)
      requires Valid() && Between(View())
      modifies Repr
      ensures Valid() && Between(View()) && View() == SpawnAll(old(View()), jobs)
    {
      hide Valid, View, Separate, ConsoleOk, IoOk, Between, Spawn;
      ghost var s := View();
      for i := 0 to |jobs|
        invariant Valid() && Between(View())
        invariant SpawnAll(View(), jobs[i..]) == SpawnAll(s, jobs)
      {
        assert jobs[i..][1..] == jobs[i + 1..];
        SpawnOne(jobs[i].0, jobs[i].1);
      }
    }

    method KprocInit(progs: Programs)
      requires Valid() && View() == Blank().(procFree := [])
      modifies Repr
      ensures Valid() && Between(View()) && View() == Runs.Boot(progs)
    {
      hide Valid, View, Separate, ConsoleOk, IoOk, Between;
      Parts();
      FillAllocator(procAllocator, PROC_MAX);
      assert View() == Blank();
      IdleBetween(progs);
      BlankDispatch(progs);
      hide Blank, Machine.KprocCreate, Machine.SchedulerRun, Dispatch, Preempt;
      var _ := KprocCreate(progs.idle, EMPTY_FRAME);
      SchedulerRun();
      SpawnJobs(Jobs(progs));
    }

    // main, up to enabling interrupts.
    static method Boot(progs: Programs) returns (k: Kernel)
      ensures k.Valid() && fresh(k.Repr) && Between(k.View()) && k.View() == Runs.Boot(progs)
    {
      hide ConsoleOk, Between, Runs.Boot;
      k := Load();
      k.KmutexesInit();
      k.KsemaphoresInit();
      k.KprocInit(progs);
    }
  }

  lemma BlankDispatch(progs: Programs)
    ensures Blank().procFree != [] ==> 0 <= Blank().procFree[0] < PROC_MAX
    ensures Dispatch(Preempt(Machine.KprocCreate(Blank(), progs.idle, EMPTY_FRAME).0)).active != NULL
  {
    var s := Machine.KprocCreate(Blank(), progs.idle, EMPTY_FRAME).0;
    assert FindPid(s.procs, 0, 0) == 0;
  }

  // The pid a process was created with is still its own in the run queue.
  lemma AddedPid(s: State, e: int)
    requires Shaped(s) && 0 <= e < PROC_MAX
    ensures SchedulerAdd(s, e).procs[e].pid == s.procs[e].pid
  {
  }

  // kmutex_lock as the code does it: wait or become the owner, then count the lock.
  lemma LockSteps(s: State, id: int)
    requires Shaped(s) && 0 <= s.active && MutexReady(s, id)
    ensures var m := s.mutexes[id]; var r := KmutexLock(s, id);
      if m.locks > 0 then
        var w := SchedulerRemove(s.(
          mutexes := s.mutexes[id := m.(wait := Enqueue(m.wait, s.procs[s.active].pid))],
          procs := SetState(s.procs, s.active, WAITING)), s.active);
        r == (w.(mutexes := w.mutexes[id := w.mutexes[id].(locks := w.mutexes[id].locks + 1)]), w.mutexes[id].locks + 1)
      else
        var w := s.(mutexes := s.mutexes[id := m.(owner := s.active)]);
        r == (w.(mutexes := w.mutexes[id := w.mutexes[id].(locks := w.mutexes[id].locks + 1)]), w.mutexes[id].locks + 1)
  {
    hide Without, Enqueue, ConsoleOk, IoOk;
    var m := s.mutexes[id];
    if m.locks > 0 {
      var q := Enqueue(m.wait, s.procs[s.active].pid);
      UpdateTwice(s.mutexes, id, m.(wait := q), m.(locks := m.locks + 1, wait := q));
    } else {
      UpdateTwice(s.mutexes, id, m.(owner := s.active), m.(locks := m.locks + 1, owner := s.active));
    }
  }

  // kmutex_unlock: drop a lock, then clear the owner or hand over.
  lemma UnlockSteps(s: State, id: int)
    requires Shaped(s) && MutexReady(s, id) && s.mutexes[id].locks >= 1
    requires var m := s.mutexes[id]; m.locks > 1 ==> m.wait != [] && PidToProc(s.procs, m.wait[0]) > 0
    ensures var d := s.(mutexes := s.mutexes[id := s.mutexes[id].(locks := s.mutexes[id].locks - 1)]);
      var m := d.mutexes[id]; var r := KmutexUnlock(s, id);
      if m.locks == 0 then r == (d.(mutexes := d.mutexes[id := m.(owner := NULL)]), 0)
      else
        var e := PidToProc(d.procs, m.wait[0]);
        r == (SchedulerAdd(d.(mutexes := d.mutexes[id := m.(owner := e, wait := m.wait[1..])]), e), m.locks)
  {
    hide PidToProc, SchedulerAdd, ConsoleOk, IoOk;
    var m := s.mutexes[id];
    var m' := m.(locks := m.locks - 1);
    UpdateTwice(s.mutexes, id, m', m'.(owner := NULL));
    if m.locks > 1 {
      UpdateTwice(s.mutexes, id, m', m'.(owner := PidToProc(s.procs, m.wait[0]), wait := m.wait[1..]));
    }
  }

  // ksem_post: count up, then take the unit back for the head of the queue.
  lemma PostSteps(s: State, id: int)
    requires Shaped(s) && SemReady(s, id)
    requires var m := s.sems[id]; m.wait != [] ==> PidToProc(s.procs, m.wait[0]) > 0
    ensures var u := s.(sems := s.sems[id := s.sems[id].(count := s.sems[id].count + 1)]);
      var m := u.sems[id]; var r := KsemPost(s, id);
      if m.wait == [] then r == (u, m.count)
      else
        var e := PidToProc(u.procs, m.wait[0]);
        r == (SchedulerAdd(u.(sems := u.sems[id := m.(count := m.count - 1, wait := m.wait[1..])]), e), m.count - 1)
  {
    hide PidToProc, SchedulerAdd, ConsoleOk, IoOk;
    var m := s.sems[id];
    if m.wait != [] {
      UpdateTwice(s.sems, id, m.(count := m.count + 1), m.(wait := m.wait[1..]));
    }
  }

  // Who has time left is not preempted, and while somebody is active nobody is dispatched.
  lemma StaysOn(s: State)
    requires Shaped(s)
    ensures s.active == NULL || s.procs[s.active].cpuTime < SCHEDULER_TIMESLICE ==> Preempt(s) == s
    ensures s.active != NULL ==> Dispatch(s) == s
  {
  }

  // What kproc_attach_tty comes to: the first two buffers are the terminal's, the others stay.
  lemma AttachedIo(s: State, pid: int, tty: int)
    requires Shaped(s)
    ensures var e := PidToProc(s.procs, pid);
      if e != NULL && 0 <= tty < TTY_MAX then
        && |s.procs[e].io| == PROC_IO_MAX
        && AttachTty(s, pid, tty) ==
             s.(procs := s.procs[e := s.procs[e].(io := [2 * tty, 2 * tty + 1] + s.procs[e].io[2..])])
        && s.procs[e].io[0 := 2 * tty][1 := 2 * tty + 1] == [2 * tty, 2 * tty + 1] + s.procs[e].io[2..]
      else AttachTty(s, pid, tty) == s
  {
    var e := PidToProc(s.procs, pid);
    hide PidToProc, ConsoleOk;
    if e != NULL && 0 <= tty < TTY_MAX {
      assert IoOk(s.procs[e].io);
      assert s.procs[e].io[0 := 2 * tty][1 := 2 * tty + 1] == [2 * tty, 2 * tty + 1] + s.procs[e].io[2..];
    }
  }

  lemma UpdateTwice<T>(s: seq<T>, i: int, a: T, b: T)
    requires 0 <= i < |s|
    ensures s[i := a][i := b] == s[i := b]
  {
  }

  // scheduler_run never comes to the branch that finds no process to run.
  lemma RunFindsSomebody(s: State)
    requires Inv(s)
    ensures Dispatch(Preempt(s)).active != NULL
  {
    PreemptKeeps(s);
    DispatchKeeps(Preempt(s));
  }

  lemma NullNotQueued(s: State)
    requires Inv(s)
    ensures NULL !in s.runQ && NULL !in s.sleepQ
  {
    PlaceOnce(s, NULL);
  }

  // Who a contended unlock and a post with waiters can rely on.
  lemma NextWaiter(s: State, id: int)
    requires Inv(s) && MutexReady(s, id) && s.mutexes[id].locks != 0
    ensures var m := s.mutexes[id];
      m.locks >= 1 && (m.locks > 1 ==> m.wait != [] && PidToProc(s.procs, m.wait[0]) > 0)
  {
    assert MutexLaw(s.mutexes[id]);
    if s.mutexes[id].locks > 1 { UnlockHandsOver(s, id); }
  }

  lemma NextPosted(s: State, id: int)
    requires Inv(s) && SemReady(s, id)
    ensures var m := s.sems[id]; m.wait != [] ==> PidToProc(s.procs, m.wait[0]) > 0
  {
    if s.sems[id].wait != [] { PostHandsOver(s, id); }
  }

  function Rotated(q: seq<int>, i: nat): (r: seq<int>)
    requires i <= |q|
    ensures |r| == |q|
  {
    q[i..] + q[..i]
  }

  // Taking the head of a rotated queue, and putting it back at the tail.
  lemma RotateOne(q: seq<int>, i: nat)
    requires i < |q|
    ensures var r := Rotated(q, i);
      r[0] == q[i] && q[i] in q && r[1..] == q[i + 1..] + q[..i] && r[1..] + [q[i]] == Rotated(q, i + 1)
    ensures q[..i + 1] == q[..i] + [q[i]]
  {
  }

  // What the rotation leaves when it meets the item first at index i.
  lemma WithoutAt(q: seq<int>, item: int, i: nat)
    requires i < |q| && q[i] == item && item !in q[..i]
    ensures item in q && Without(q, item) == q[i + 1..] + q[..i]
  {
    IndexIs(q, item, i);
  }

  lemma {:induction false} IndexIs(q: seq<int>, item: int, i: nat)
    requires i < |q| && q[i] == item && item !in q[..i]
    ensures IndexOf(q, item) == i
  {
    if i > 0 {
      assert q[0] in q[..i];
      assert q[1..][..i - 1] == q[..i][1..];
      IndexIs(q[1..], item, i - 1);
    }
  }
}
