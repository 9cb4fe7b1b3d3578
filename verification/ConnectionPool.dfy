/**
 The lazily growing connection pool (src/mysql/ConnectionPool.cpp) as a step system, with the
 one-connection-per-operation discipline of ScopedConnection (src/mysql/Database.cpp) and the
 sizing done by TgLoggerd::start.
 */
module ConnectionPool {
  import opened Common
  import opened Counting
  import opened WaitTally

  type Tid = nat
  type Conn = nat

  datatype PC =
    | Out                          // not using the database
    | AcqLock(woken: bool)         // acquire(): wants the lock, first time or after cv_
    | AcqHeld(woken: bool)         // acquire(): holds the lock
    | AcqWait                      // acquire(): waits on cv_
    | Creating                     // acquire(): create() runs outside the lock
    | FailLock                     // create() threw; wants the lock again
    | FailHeld                     // create() threw; holds the lock
    | Using(conn: Conn)            // the operation runs on its connection
    | RelLock(conn: Conn)          // release(): wants the lock
    | RelHeld(conn: Conn)          // release(): holds the lock
    | RelNotify                    // release(): unlocked, owes cv_.notify_one()
  {
    predicate Held() { AcqHeld? || FailHeld? || RelHeld? }
    predicate Borrows() { Using? || RelLock? || RelHeld? }
    predicate Creates() { Creating? || FailLock? || FailHeld? }
  }

  datatype Pool = Pool(
    size: nat,                  // cfg_.pool_size
    pc: map<Tid, PC>,
    lock: Option<Tid>,          // owner of mtx_
    idle: seq<Conn>,            // idle_
    created: int,               // created_
    nextName: nat                 // connections opened so far; the next one gets this name
  )

  datatype Step =
    | Begin(t: Tid)                            // a thread starts an operation: ScopedConnection()
    | Acquire(t: Tid)                          // t obtains mtx_
    | Critical(t: Tid, wake: Option<Tid>)      // t runs its critical section
    | Created(t: Tid)                          // create() returned a connection
    | Failed(t: Tid)                           // create() threw
    | End(t: Tid)                              // the operation ends: ~ScopedConnection()
    | Notify(t: Tid, wake: Option<Tid>)        // t pays its notify_one
    | Spurious(t: Tid)

  /** The constructor clamps the size to at least one. */
  function Init(poolSize: nat, threads: set<Tid>): Pool {
    Pool(if poolSize == 0 then 1 else poolSize, map t | t in threads :: Out, None, [], 0, 0)
  }

  function Update(pcs: map<Tid, PC>, t: Tid, next: PC, wake: Option<Tid>): map<Tid, PC> {
    map u | u in pcs :: if u == t then next else if wake == Some(u) && pcs[u].AcqWait? then AcqLock(true) else pcs[u]
  }

  ghost predicate Picks(pcs: map<Tid, PC>, wake: Option<Tid>) {
    match wake
    case None => forall w :: w in pcs ==> !pcs[w].AcqWait?
    case Some(w) => w in pcs && pcs[w].AcqWait?
  }

  ghost predicate Enabled(p: Pool, s: Step) {
    s.t in p.pc &&
    match s
    case Begin(t) => p.pc[t].Out?
    case Acquire(t) => p.lock.None? && (p.pc[t].AcqLock? || p.pc[t].FailLock? || p.pc[t].RelLock?)
    case Critical(t, wake) =>
      && p.lock == Some(t) && p.pc[t].Held()
      && if p.pc[t].FailHeld? then Picks(p.pc, wake) else wake.None?
    case Created(t) => p.pc[t].Creating?
    case Failed(t) => p.pc[t].Creating?
    case End(t) => p.pc[t].Using?
    case Notify(t, wake) => p.pc[t].RelNotify? && Picks(p.pc, wake)
    case Spurious(t) => p.pc[t].AcqWait?
  }

  function ApplyCritical(p: Pool, t: Tid, wake: Option<Tid>): Pool
    requires t in p.pc && p.pc[t].Held()
  {
    match p.pc[t]
    case AcqHeld(_) =>
      if p.idle != [] then
        p.(pc := Update(p.pc, t, Using(p.idle[0]), None), lock := None, idle := p.idle[1..])
      else if p.created < p.size then
        p.(pc := Update(p.pc, t, Creating, None), lock := None, created := p.created + 1)
      else
        p.(pc := Update(p.pc, t, AcqWait, None), lock := None)
    case FailHeld =>
      p.(pc := Update(p.pc, t, Out, wake), lock := None, created := p.created - 1)
    case RelHeld(conn) =>
      p.(pc := Update(p.pc, t, RelNotify, None), lock := None, idle := p.idle + [conn])
  }

  function Apply(p: Pool, s: Step): Pool
    requires Enabled(p, s)
  {
    match s
    case Begin(t) => p.(pc := Update(p.pc, t, AcqLock(false), None))
    case Acquire(t) =>
      var held := match p.pc[t]
        case AcqLock(woken) => AcqHeld(woken)
        case FailLock => FailHeld
        case RelLock(conn) => RelHeld(conn)
        case _ => p.pc[t];
      p.(pc := Update(p.pc, t, held, None), lock := Some(t))
    case Critical(t, wake) => ApplyCritical(p, t, wake)
    case Created(t) => p.(pc := Update(p.pc, t, Using(p.nextName), None), nextName := p.nextName + 1)
    case Failed(t) => p.(pc := Update(p.pc, t, FailLock, None))
    case End(t) => p.(pc := Update(p.pc, t, RelLock(p.pc[t].conn), None))
    case Notify(t, wake) => p.(pc := Update(p.pc, t, Out, wake))
    case Spurious(t) => p.(pc := Update(p.pc, t, AcqLock(true), None))
  }

  // ---------------------------------------------------------------- invariants

  ghost predicate Locked(p: Pool) {
    && (p.lock.Some? ==> p.lock.value in p.pc)
    && forall t :: t in p.pc ==> (p.pc[t].Held() <==> p.lock == Some(t))
  }

  function Borrowing(pc: PC): nat { if pc.Borrows() then 1 else 0 }
  function BeingCreated(pc: PC): nat { if pc.Creates() then 1 else 0 }
  function Waiting(pc: PC): nat { if pc.AcqWait? then 1 else 0 }
  function Awakened(pc: PC): nat { if (pc.AcqLock? || pc.AcqHeld?) && pc.woken then 1 else 0 }
  function Owing(pc: PC): nat { if pc.RelNotify? then 1 else 0 }

  /** created_ counts the idle, the borrowed and the connections being created. */
  ghost predicate Conserved(p: Pool) {
    && p.created == |p.idle| + Sum(p.pc, Borrowing) + Sum(p.pc, BeingCreated)
    && p.created <= p.size
  }

  /** A connection is idle once or borrowed by one thread. */
  ghost predicate Exclusive(p: Pool) {
    && (forall i, j :: 0 <= i < j < |p.idle| ==> p.idle[i] != p.idle[j])
    && (forall c <- p.idle :: c < p.nextName)
    && (forall t :: t in p.pc && p.pc[t].Borrows() ==> p.pc[t].conn !in p.idle && p.pc[t].conn < p.nextName)
    && (forall t, u :: t in p.pc && u in p.pc && t != u && p.pc[t].Borrows() && p.pc[u].Borrows()
          ==> p.pc[t].conn != p.pc[u].conn)
  }

  /** cv_: a caller can proceed with an idle connection or with capacity to create one. */
  ghost function Cv(p: Pool): Tally
    requires p.created <= p.size
  {
    Tally(Sum(p.pc, Waiting), Sum(p.pc, Awakened), Sum(p.pc, Owing), |p.idle| + (p.size - p.created))
  }

  ghost predicate Inv(p: Pool) {
    Locked(p) && Conserved(p) && Exclusive(p) && Covered(Cv(p))
  }

  lemma InitInv(poolSize: nat, threads: set<Tid>)
    ensures Inv(Init(poolSize, threads))
  {
    var p := Init(poolSize, threads);
    SumZero(p.pc, Borrowing);
    SumZero(p.pc, BeingCreated);
    SumZero(p.pc, Waiting);
  }

  // ---------------------------------------------------------------- one step as a row of a table

  /** The control flow of the stepping thread, whom it wakes, and what it does to the counters. */
  ghost predicate Row(p: Pool, p': Pool, t: Tid, wake: Option<Tid>) {
    && t in p.pc && t in p'.pc
    && (wake.Some? ==> wake.value in p.pc && wake.value != t && p.pc[wake.value].AcqWait?)
    && p'.pc == Update(p.pc, t, p'.pc[t], wake) && p'.pc.Keys == p.pc.Keys
    && p'.size == p.size
    && var same := p'.idle == p.idle && p'.created == p.created;
       match p.pc[t]
       case Out => p'.pc[t] == AcqLock(false) && wake == None && same && p'.nextName == p.nextName
       case AcqLock(woken) => p'.pc[t] == AcqHeld(woken) && wake == None && same && p'.nextName == p.nextName
       case AcqHeld(woken) =>
         && wake == None && p'.nextName == p.nextName
         && if p.idle != [] then p'.pc[t] == Using(p.idle[0]) && p'.idle == p.idle[1..] && p'.created == p.created
            else if p.created < p.size then p'.pc[t] == Creating && p'.idle == p.idle && p'.created == p.created + 1
            else p'.pc[t] == AcqWait && same
       case AcqWait => p'.pc[t] == AcqLock(true) && wake == None && same && p'.nextName == p.nextName
       case Creating =>
         && wake == None && same
         && ((p'.pc[t] == Using(p.nextName) && p'.nextName == p.nextName + 1)
           || (p'.pc[t] == FailLock && p'.nextName == p.nextName))
       case FailLock => p'.pc[t] == FailHeld && wake == None && same && p'.nextName == p.nextName
       case FailHeld =>
         && p'.pc[t] == Out && Picks(p.pc, wake) && p'.nextName == p.nextName
         && p'.idle == p.idle && p'.created == p.created - 1
       case Using(conn) => p'.pc[t] == RelLock(conn) && wake == None && same && p'.nextName == p.nextName
       case RelLock(conn) => p'.pc[t] == RelHeld(conn) && wake == None && same && p'.nextName == p.nextName
       case RelHeld(conn) =>
         && p'.pc[t] == RelNotify && wake == None && p'.nextName == p.nextName
         && p'.idle == p.idle + [conn] && p'.created == p.created
       case RelNotify => p'.pc[t] == Out && Picks(p.pc, wake) && same && p'.nextName == p.nextName
  }

  lemma StepIsRow(p: Pool, s: Step)
    requires Enabled(p, s)
    ensures Row(p, Apply(p, s), s.t, if s.Critical? || s.Notify? then s.wake else None)
  {
    assert Apply(p, s).pc.Keys == p.pc.Keys;
  }

  lemma SumAfter(pcs: map<Tid, PC>, t: Tid, next: PC, wake: Option<Tid>, weight: PC -> nat)
    requires t in pcs && (wake.Some? ==> wake.value in pcs && wake.value != t && pcs[wake.value].AcqWait?)
    ensures Sum(Update(pcs, t, next, wake), weight)
         == Sum(pcs, weight) + weight(next) - weight(pcs[t])
          + (if wake.Some? then weight(AcqLock(true)) - weight(AcqWait) else 0)
    ensures Sum(pcs, weight) >= weight(pcs[t])
  {
    SumUpdate(pcs, t, next, weight);
    SumSplit(pcs, t, weight);
    var moved := pcs[t := next];
    if wake.Some? {
      SumUpdate(moved, wake.value, AcqLock(true), weight);
      assert Update(pcs, t, next, wake) == moved[wake.value := AcqLock(true)];
    } else {
      assert Update(pcs, t, next, wake) == moved;
    }
  }

  // ---------------------------------------------------------------- the invariants are kept

  lemma LockedKept(p: Pool, s: Step)
    requires Locked(p) && Enabled(p, s)
    ensures Locked(Apply(p, s))
  {
  }

  lemma ConservedKept(p: Pool, p': Pool, t: Tid, wake: Option<Tid>)
    requires Conserved(p) && Row(p, p', t, wake)
    ensures Conserved(p')
  {
    SumAfter(p.pc, t, p'.pc[t], wake, Borrowing);
    SumAfter(p.pc, t, p'.pc[t], wake, BeingCreated);
  }

  /** The idle list after a step: some of it, or all of it and the connection given back. */
  lemma IdleKept(p: Pool, p': Pool, t: Tid, wake: Option<Tid>)
    requires Exclusive(p) && Row(p, p', t, wake)
    ensures forall i, j :: 0 <= i < j < |p'.idle| ==> p'.idle[i] != p'.idle[j]
    ensures forall c <- p'.idle :: c in p.idle || (p.pc[t].RelHeld? && c == p.pc[t].conn)
    ensures p.pc[t].AcqHeld? && p.idle != [] ==> p.idle[0] !in p'.idle
    ensures p.nextName <= p'.nextName
  {
    if p.pc[t].AcqHeld? && p.idle != [] {
      assert p.idle[0] in p.idle && p.idle[0] !in p.idle[1..];
    }
  }

  lemma BorrowsKept(p: Pool, p': Pool, t: Tid, wake: Option<Tid>, u: Tid)
    requires Row(p, p', t, wake) && u in p.pc && u != t
    ensures p'.pc[u].Borrows() == p.pc[u].Borrows() && (p.pc[u].Borrows() ==> p'.pc[u] == p.pc[u])
  {
  }

  lemma ExclusiveKept(p: Pool, p': Pool, t: Tid, wake: Option<Tid>)
    requires Exclusive(p) && Row(p, p', t, wake)
    ensures Exclusive(p')
  {
    IdleKept(p, p', t, wake);
    forall u | u in p.pc && u != t
      ensures p'.pc[u].Borrows() == p.pc[u].Borrows() && (p.pc[u].Borrows() ==> p'.pc[u] == p.pc[u])
    {
      BorrowsKept(p, p', t, wake, u);
    }
    if p.pc[t].AcqHeld? && p.idle != [] {
      assert p.idle[0] in p.idle;
    }
    assert p'.pc[t].Borrows() ==> p'.pc[t].conn !in p'.idle && p'.pc[t].conn < p'.nextName;
  }

  lemma CvAfter(p: Pool, p': Pool, t: Tid, wake: Option<Tid>)
    requires Row(p, p', t, wake) && p.created <= p.size && p'.created <= p'.size
    ensures Cv(p').waiting == Cv(p).waiting + Waiting(p'.pc[t]) - Waiting(p.pc[t]) - if wake.Some? then 1 else 0
    ensures Cv(p').awakened == Cv(p).awakened + Awakened(p'.pc[t]) - Awakened(p.pc[t]) + if wake.Some? then 1 else 0
    ensures Cv(p').owed == Cv(p).owed + Owing(p'.pc[t]) - Owing(p.pc[t])
    ensures Cv(p).waiting >= Waiting(p.pc[t]) && Cv(p).awakened >= Awakened(p.pc[t]) && Cv(p).owed >= Owing(p.pc[t])
    ensures wake.Some? ==> Cv(p).waiting > 0
    ensures wake.None? && (p.pc[t].FailHeld? || p.pc[t].RelNotify?) ==> Cv(p).waiting == 0
  {
    SumAfter(p.pc, t, p'.pc[t], wake, Waiting);
    SumAfter(p.pc, t, p'.pc[t], wake, Awakened);
    SumAfter(p.pc, t, p'.pc[t], wake, Owing);
    SumZero(p.pc, Waiting);
  }

  /** Every step moves the cv_ tally as the counting argument allows. */
  lemma CvMoves(p: Pool, p': Pool, t: Tid, wake: Option<Tid>)
    requires Row(p, p', t, wake) && p.created <= p.size && p'.created <= p'.size
    ensures Moves(Cv(p), Cv(p'))
  {
    var a, b := Cv(p), Cv(p');
    CvAfter(p, p', t, wake);
    if p.pc[t].AcqHeld? {
      assert if a.avail == 0 then Looks(a, b.(waiting := b.waiting - 1)) else Looks(a.(avail := a.avail - 1), b);
    } else if p.pc[t].FailHeld? {
      assert b == WaitTally.Notify(a.(avail := a.avail + 1));
    } else if p.pc[t].RelHeld? {
      assert b == a.(avail := a.avail + 1, owed := a.owed + 1);
    } else if p.pc[t].RelNotify? {
      assert b == WaitTally.Notify(a.(owed := a.owed - 1));
    } else if p.pc[t].AcqWait? {
      assert b == WaitTally.Notify(a);
    } else {
      assert a == b;
    }
  }

  lemma StepKeepsInv(p: Pool, s: Step)
    requires Inv(p) && Enabled(p, s)
    ensures Inv(Apply(p, s))
  {
    var p' := Apply(p, s);
    var wake := if s.Critical? || s.Notify? then s.wake else None;
    StepIsRow(p, s);
    LockedKept(p, s);
    ConservedKept(p, p', s.t, wake);
    ExclusiveKept(p, p', s.t, wake);
    CvMoves(p, p', s.t, wake);
    CoveredKept(Cv(p), Cv(p'));
  }

  ghost predicate Reaches(p: Pool, steps: seq<Step>, p': Pool)
    decreases |steps|
  {
    if steps == [] then p' == p
    else Enabled(p, steps[0]) && Reaches(Apply(p, steps[0]), steps[1..], p')
  }

  lemma {:induction false} ReachableInv(p: Pool, steps: seq<Step>, p': Pool)
    requires Inv(p) && Reaches(p, steps, p')
    ensures Inv(p') && p'.pc.Keys == p.pc.Keys && p'.size == p.size
    decreases |steps|
  {
    if steps != [] {
      var next := Apply(p, steps[0]);
      assert Inv(next) by {
        StepKeepsInv(p, steps[0]);
      }
      StepIsRow(p, steps[0]);
      ReachableInv(next, steps[1..], p');
    }
  }

  /**
   Conservation, exclusive use and no lost wakeup, in every interleaving of any threads with any
   pattern of failing creations.
   */
  lemma PoolOnAnyRun(poolSize: nat, threads: set<Tid>, steps: seq<Step>, p: Pool)
    requires Reaches(Init(poolSize, threads), steps, p)
    ensures p.created == |p.idle| + Sum(p.pc, Borrowing) + Sum(p.pc, BeingCreated)
    ensures p.created <= p.size && p.size == if poolSize == 0 then 1 else poolSize
    ensures Exclusive(p)
    ensures Sum(p.pc, Waiting) > 0 ==> |p.idle| + (p.size - p.created) <= Sum(p.pc, Owing) + Sum(p.pc, Awakened)
  {
    InitInv(poolSize, threads);
    ReachableInv(Init(poolSize, threads), steps, p);
  }

  // ---------------------------------------------------------------- progress

  /** Steps that need nothing from outside: not a new operation, not the end of one, not create(). */
  predicate Internal(s: Step) {
    s.Acquire? || s.Critical? || s.Notify?
  }

  /**
   Callers are only ever blocked for a good reason: if no thread can take a step and somebody waits
   for a connection, then every connection the pool may have is in use or being created.
   */
  lemma WaitersOnlyWhenExhausted(p: Pool, t: Tid)
    requires Inv(p) && t in p.pc && p.pc[t].AcqWait?
    requires forall s: Step :: Internal(s) ==> !Enabled(p, s)
    ensures p.idle == [] && p.created == p.size
    ensures Sum(p.pc, Borrowing) + Sum(p.pc, BeingCreated) == p.size
  {
    if p.lock.Some? {
      var h := p.lock.value;
      if p.pc[h].FailHeld? {
        assert Enabled(p, Critical(h, Some(t)));
      } else {
        assert Enabled(p, Critical(h, None));
      }
    }
    forall u | u in p.pc
      ensures Awakened(p.pc[u]) == 0 && Owing(p.pc[u]) == 0
    {
      assert !Enabled(p, Acquire(u)) && !Enabled(p, Notify(u, Some(t)));
    }
    SumZero(p.pc, Awakened);
    SumZero(p.pc, Owing);
    SumZero(p.pc, Waiting);
    QuietMeansExhausted(Cv(p));
  }

  // ---------------------------------------------------------------- sizing

  /** TgLoggerd::start: clamp the file threads to one and the pool to one connection per writer. */
  method Size(fileThreadsEnv: nat, dbPoolEnv: Option<nat>) returns (fileThreads: nat, dbPool: nat)
    ensures fileThreads >= 1 && dbPool >= fileThreads + 1
    ensures fileThreadsEnv >= 1 ==> fileThreads == fileThreadsEnv
    ensures dbPoolEnv.None? ==> dbPool == fileThreads + 2
    ensures dbPoolEnv.Some? && dbPoolEnv.value >= fileThreads + 1 ==> dbPool == dbPoolEnv.value
    ensures dbPoolEnv.Some? && dbPoolEnv.value < fileThreads + 1 ==> dbPool == fileThreads + 1
  {
    fileThreads := fileThreadsEnv;
    if fileThreads < 1 {
      fileThreads := 1;
    }
    dbPool := if dbPoolEnv.Some? then dbPoolEnv.value else fileThreads + 2;
    if dbPool < fileThreads + 1 {
      dbPool := fileThreads + 1;
    }
  }

  function Holding(pc: PC): nat { if pc.Borrows() || pc.Creates() then 1 else 0 }

  lemma {:induction false} HoldingSplits(pcs: map<Tid, PC>)
    ensures Sum(pcs, Holding) == Sum(pcs, Borrowing) + Sum(pcs, BeingCreated)
    decreases |pcs|
  {
    if pcs != map[] {
      var t :| t in pcs;
      SumSplit(pcs, t, Holding);
      SumSplit(pcs, t, Borrowing);
      SumSplit(pcs, t, BeingCreated);
      HoldingSplits(pcs - {t});
    }
  }

  /** A thread that looks for a connection is not counted in created_, so one is always left for it. */
  lemma AlwaysRoom(p: Pool, t: Tid)
    requires Conserved(p) && |p.pc| <= p.size && t in p.pc && p.pc[t].AcqHeld?
    ensures p.idle != [] || p.created < p.size
  {
    HoldingSplits(p.pc);
    SumAtMostSize(p.pc, Holding);
    assert Holding(p.pc[t]) == 0;
  }

  ghost predicate NobodyWaits(p: Pool) {
    forall t :: t in p.pc ==> !p.pc[t].AcqWait?
  }

  lemma NobodyStartsToWait(p: Pool, s: Step)
    requires Conserved(p) && NobodyWaits(p) && |p.pc| <= p.size && Enabled(p, s)
    ensures NobodyWaits(Apply(p, s)) && |Apply(p, s).pc| == |p.pc| && Apply(p, s).size == p.size
  {
    StepIsRow(p, s);
    assert |Apply(p, s).pc| == |Apply(p, s).pc.Keys| == |p.pc.Keys| == |p.pc|;
    if p.pc[s.t].AcqHeld? {
      AlwaysRoom(p, s.t);
    }
  }

  /**
   Sizing makes acquisition non-blocking: with at least as many connections as writing threads, no
   acquire() ever reaches its wait, on any run, creation failures included.
   */
  lemma {:induction false} NeverWaits(p: Pool, steps: seq<Step>, p': Pool)
    requires Inv(p) && |p.pc| <= p.size && NobodyWaits(p) && Reaches(p, steps, p')
    ensures NobodyWaits(p')
    decreases |steps|
  {
    if steps != [] {
      var next := Apply(p, steps[0]);
      assert Inv(next) by {
        StepKeepsInv(p, steps[0]);
      }
      NobodyStartsToWait(p, steps[0]);
      NeverWaits(next, steps[1..], p');
    }
  }

  /** The pool when the writing threads come into being: as the main thread left it. */
  function WithWriters(p: Pool, writers: set<Tid>): Pool {
    p.(pc := map t | t in writers :: Out)
  }

  lemma WritersStartSound(p: Pool, main: Tid, writers: set<Tid>)
    requires Inv(p) && p.pc == map[main := Out]
    ensures Inv(WithWriters(p, writers)) && NobodyWaits(WithWriters(p, writers))
  {
    var start := WithWriters(p, writers);
    SumZero(p.pc, Borrowing);
    SumZero(p.pc, BeingCreated);
    SumZero(start.pc, Borrowing);
    SumZero(start.pc, BeingCreated);
    SumZero(start.pc, Waiting);
  }

  /**
   The writers of the program, its file workers and the serial worker, never wait for a connection:
   whatever the main thread did on the pool before it started them, its ping above all.
   */
  lemma WritersNeverWait(
    poolSize: nat, main: Tid, startup: seq<Step>, pinged: Pool,
    fileWorkers: set<Tid>, serialWorker: Tid, steps: seq<Step>, p: Pool)
    requires poolSize >= |fileWorkers| + 1 && serialWorker !in fileWorkers
    requires Reaches(Init(poolSize, {main}), startup, pinged) && pinged.pc == map[main := Out]
    requires Reaches(WithWriters(pinged, fileWorkers + {serialWorker}), steps, p)
    ensures NobodyWaits(p)
  {
    var writers := fileWorkers + {serialWorker};
    var start := WithWriters(pinged, writers);
    InitInv(poolSize, {main});
    ReachableInv(Init(poolSize, {main}), startup, pinged);
    WritersStartSound(pinged, main, writers);
    assert start.pc.Keys == writers;
    assert |start.pc| == |start.pc.Keys|;
    NeverWaits(start, steps, p);
  }
}
