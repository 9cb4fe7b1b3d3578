/**
 The bounded FIFO thread pool (src/tgloggerd/ThreadPool.cpp) as a step system.

 Every thread has a program counter.  A step is one lock acquisition, one critical section up to
 the point where it unlocks or waits, one notification issued after unlocking, or one spurious
 wakeup.  Queued jobs are numbered by the order in which they were accepted; the number is the
 job's ticket.
 */
module ThreadPool {
  import opened Common
  import opened Counting
  import opened WaitTally

  type Tid = nat

  datatype PC<J> =
    | Out                                  // not inside the pool
    | PostLock(job: J, woken: bool)        // post(): wants the lock, first time or after not_full_
    | PostHeld(job: J, woken: bool)        // post(): holds the lock
    | PostWait(job: J)                     // post(): waits on not_full_
    | WorkLock(woken: bool)                // run(): wants the lock, first time or after not_empty_
    | WorkHeld(woken: bool)                // run(): holds the lock
    | WorkWait                             // run(): waits on not_empty_
    | WorkNotify(ticket: nat)              // run(): job taken, unlocked, owes not_full_.notify_one()
    | WorkRun(ticket: nat)                 // run(): runs the job
    | WorkDone                             // run() returned
    | ShutLock                             // shutdown(): wants the lock
    | ShutHeld                             // shutdown(): holds the lock
    | ShutWakeWorkers                      // shutdown(): owes not_empty_.notify_all()
    | ShutWakePosters                      // shutdown(): owes not_full_.notify_all()
    | ShutJoin                             // shutdown(): joins the workers
  {
    predicate Work() {
      WorkLock? || WorkHeld? || WorkWait? || WorkNotify? || WorkRun? || WorkDone?
    }

    predicate Post() {
      PostLock? || PostHeld? || PostWait?
    }

    predicate Held() {
      PostHeld? || WorkHeld? || ShutHeld?
    }

    /** The ticket the worker has dequeued and not finished. */
    function Carried(): Option<nat> {
      if WorkNotify? || WorkRun? then Some(ticket) else None
    }
  }

  datatype Pool<J> = Pool(
    cap: nat,                   // cap_; 0 means unbounded
    workers: set<Tid>,          // threads_
    pc: map<Tid, PC<J>>,
    lock: Option<Tid>,          // owner of mtx_
    q: seq<J>,                  // q_
    draining: bool,             // draining_
    accepted: seq<J>,           // every job ever pushed, in order
    taken: nat,                 // how many of them were popped
    finished: seq<nat>,         // tickets in the order in which their jobs ended
    dropped: seq<J>             // jobs refused because the pool was draining
  )

  datatype Step<J> =
    | Enter(t: Tid, job: J)                    // a client calls post()
    | CallShutdown(t: Tid)                     // a client calls shutdown()
    | Acquire(t: Tid)                          // t obtains mtx_
    | Critical(t: Tid, wake: Option<Tid>)      // t runs its critical section; wake is whom it notifies
    | Signal(t: Tid, wake: Option<Tid>)        // t pays its not_full_.notify_one()
    | WakeWorkers(t: Tid)                      // not_empty_.notify_all()
    | WakePosters(t: Tid)                      // not_full_.notify_all()
    | Join(t: Tid)                             // shutdown() returns
    | Finish(t: Tid)                           // the running job returned or threw
    | Spurious(t: Tid)                         // a wait returns without notification

  function Init<J>(cap: nat, workers: set<Tid>, clients: set<Tid>): Pool<J> {
    Pool(cap, workers, map t | t in workers + clients :: if t in workers then WorkLock(false) else Out,
         None, [], false, [], 0, [], [])
  }

  // ---------------------------------------------------------------- steps

  function Woken<J>(pc: PC<J>): PC<J> {
    match pc
    case PostWait(job) => PostLock(job, true)
    case WorkWait => WorkLock(true)
    case _ => pc
  }

  /** Thread t moves to `next` and the threads in `woken` leave their wait. */
  function Update<J>(pcs: map<Tid, PC<J>>, t: Tid, next: PC<J>, woken: set<Tid>): map<Tid, PC<J>> {
    map u | u in pcs :: if u == t then next else if u in woken then Woken(pcs[u]) else pcs[u]
  }

  function One(wake: Option<Tid>): set<Tid> {
    if wake.Some? then {wake.value} else {}
  }

  /** notify_one picks any waiter, and none only if there is none. */
  ghost predicate PicksWorker<J>(pcs: map<Tid, PC<J>>, wake: Option<Tid>) {
    match wake
    case None => forall w :: w in pcs ==> !pcs[w].WorkWait?
    case Some(w) => w in pcs && pcs[w].WorkWait?
  }

  ghost predicate PicksPoster<J>(pcs: map<Tid, PC<J>>, wake: Option<Tid>) {
    match wake
    case None => forall w :: w in pcs ==> !pcs[w].PostWait?
    case Some(w) => w in pcs && pcs[w].PostWait?
  }

  predicate Full<J>(p: Pool<J>) {
    p.cap != 0 && |p.q| >= p.cap
  }

  ghost predicate Enabled<J>(p: Pool<J>, s: Step<J>) {
    s.t in p.pc &&
    match s
    case Enter(t, job) => p.pc[t].Out?
    case CallShutdown(t) => p.pc[t].Out?
    case Acquire(t) => p.lock.None? && (p.pc[t].PostLock? || p.pc[t].WorkLock? || p.pc[t].ShutLock?)
    case Critical(t, wake) =>
      p.lock == Some(t) && p.pc[t].Held() &&
      if p.pc[t].PostHeld? && !p.draining && !Full(p) then PicksWorker(p.pc, wake) else wake.None?
    case Signal(t, wake) => p.pc[t].WorkNotify? && PicksPoster(p.pc, wake)
    case WakeWorkers(t) => p.pc[t].ShutWakeWorkers?
    case WakePosters(t) => p.pc[t].ShutWakePosters?
    case Join(t) => p.pc[t].ShutJoin? && forall w <- p.workers :: w in p.pc ==> p.pc[w].WorkDone?
    case Finish(t) => p.pc[t].WorkRun?
    case Spurious(t) => p.pc[t].PostWait? || p.pc[t].WorkWait?
  }

  function ApplyCritical<J>(p: Pool<J>, t: Tid, wake: Option<Tid>): Pool<J>
    requires t in p.pc && p.pc[t].Held()
  {
    match p.pc[t]
    case PostHeld(job, _) =>
      if p.draining then
        p.(pc := Update(p.pc, t, Out, {}), lock := None, dropped := p.dropped + [job])
      else if Full(p) then
        p.(pc := Update(p.pc, t, PostWait(job), {}), lock := None)
      else
        p.(pc := Update(p.pc, t, Out, One(wake)), lock := None, q := p.q + [job], accepted := p.accepted + [job])
    case WorkHeld(_) =>
      if p.q != [] then
        p.(pc := Update(p.pc, t, WorkNotify(p.taken), {}), lock := None, q := p.q[1..], taken := p.taken + 1)
      else
        p.(pc := Update(p.pc, t, if p.draining then WorkDone else WorkWait, {}), lock := None)
    case ShutHeld =>
      p.(pc := Update(p.pc, t, ShutWakeWorkers, {}), lock := None, draining := true)
  }

  function Apply<J>(p: Pool<J>, s: Step<J>): Pool<J>
    requires Enabled(p, s)
  {
    match s
    case Enter(t, job) => p.(pc := Update(p.pc, t, PostLock(job, false), {}))
    case CallShutdown(t) => p.(pc := Update(p.pc, t, ShutLock, {}))
    case Acquire(t) =>
      var held := match p.pc[t]
        case PostLock(job, woken) => PostHeld(job, woken)
        case WorkLock(woken) => WorkHeld(woken)
        case _ => ShutHeld;
      p.(pc := Update(p.pc, t, held, {}), lock := Some(t))
    case Critical(t, wake) => ApplyCritical(p, t, wake)
    case Signal(t, wake) => p.(pc := Update(p.pc, t, WorkRun(p.pc[t].ticket), One(wake)))
    case WakeWorkers(t) => p.(pc := Update(p.pc, t, ShutWakePosters, set u | u in p.pc && p.pc[u].WorkWait?))
    case WakePosters(t) => p.(pc := Update(p.pc, t, ShutJoin, set u | u in p.pc && p.pc[u].PostWait?))
    case Join(t) => p.(pc := Update(p.pc, t, Out, {}))
    case Finish(t) =>
      p.(pc := Update(p.pc, t, WorkLock(false), {}), finished := p.finished + [p.pc[t].ticket])
    case Spurious(t) => p.(pc := Update(p.pc, t, Woken(p.pc[t]), {}))
  }

  // ---------------------------------------------------------------- invariants

  /** Worker threads run run(), every other thread is outside or in post() or shutdown(). */
  ghost predicate Roles<J>(p: Pool<J>) {
    && p.workers <= p.pc.Keys
    && forall t :: t in p.pc ==> (t in p.workers <==> p.pc[t].Work())
  }

  /** mtx_ excludes: exactly its owner is inside a critical section. */
  ghost predicate Locked<J>(p: Pool<J>) {
    && (p.lock.Some? ==> p.lock.value in p.pc)
    && forall t :: t in p.pc ==> (p.pc[t].Held() <==> p.lock == Some(t))
  }

  /** The queue is what was accepted and not yet popped, in order, and never over capacity. */
  ghost predicate Queued<J>(p: Pool<J>) {
    && p.taken <= |p.accepted|
    && p.q == p.accepted[p.taken..]
    && (p.cap != 0 ==> |p.q| <= p.cap)
    && (!p.draining ==> p.dropped == [])
    && (p.cap == 0 ==> forall t :: t in p.pc ==> !p.pc[t].PostWait?)
  }

  /** Each popped ticket is either carried by exactly one worker or has finished exactly once. */
  ghost predicate Tickets<J>(pcs: map<Tid, PC<J>>, taken: nat, finished: seq<nat>) {
    && (forall i, j :: 0 <= i < j < |finished| ==> finished[i] != finished[j])
    && (forall k <- finished :: k < taken)
    && (forall t :: t in pcs && pcs[t].Carried().Some? ==>
          pcs[t].Carried().value < taken && pcs[t].Carried().value !in finished)
    && (forall t, u ::
          t in pcs && u in pcs && pcs[t].Carried().Some? && pcs[t].Carried() == pcs[u].Carried() ==> t == u)
    && (forall k: nat :: k < taken && k !in finished ==> exists t :: t in pcs && pcs[t].Carried() == Some(k))
  }

  ghost predicate Shutting<J>(pc: PC<J>) {
    pc.ShutWakeWorkers? || pc.ShutWakePosters? || pc.ShutJoin?
  }

  /** Only a draining pool has threads past shutdown()'s critical section or finished workers. */
  ghost predicate Drained<J>(p: Pool<J>) {
    forall t :: t in p.pc ==>
      (Shutting(p.pc[t]) ==> p.draining) && (p.pc[t].WorkDone? ==> p.draining && p.q == [])
  }

  /** Once draining, a waiter implies that the notify_all that frees it is still owed. */
  ghost predicate WakersOwed<J>(p: Pool<J>) {
    p.draining ==> forall t :: t in p.pc ==>
      && (p.pc[t].WorkWait? ==> exists u :: u in p.pc && p.pc[u].ShutWakeWorkers?)
      && (p.pc[t].PostWait? ==> exists u :: u in p.pc && (p.pc[u].ShutWakeWorkers? || p.pc[u].ShutWakePosters?))
  }

  function PostWaits<J>(pc: PC<J>): nat { if pc.PostWait? then 1 else 0 }
  function PostWoken<J>(pc: PC<J>): nat { if (pc.PostLock? || pc.PostHeld?) && pc.woken then 1 else 0 }
  function OwesNotFull<J>(pc: PC<J>): nat { if pc.WorkNotify? then 1 else 0 }
  function WorkWaits<J>(pc: PC<J>): nat { if pc.WorkWait? then 1 else 0 }
  function WorkWoken<J>(pc: PC<J>): nat { if (pc.WorkLock? || pc.WorkHeld?) && pc.woken then 1 else 0 }

  /** not_full_: posters wait for free slots; workers owe the notification after unlocking. */
  ghost function NotFull<J>(p: Pool<J>): Tally
    requires |p.q| <= p.cap
  {
    Tally(Sum(p.pc, PostWaits), Sum(p.pc, PostWoken), Sum(p.pc, OwesNotFull), p.cap - |p.q|)
  }

  /** not_empty_: workers wait for queued jobs; post() notifies under the lock. */
  ghost function NotEmpty<J>(p: Pool<J>): Tally {
    Tally(Sum(p.pc, WorkWaits), Sum(p.pc, WorkWoken), 0, |p.q|)
  }

  ghost predicate NoLostWakeup<J>(p: Pool<J>)
    requires Queued(p)
  {
    !p.draining ==> Covered(NotEmpty(p)) && (p.cap != 0 ==> Covered(NotFull(p)))
  }

  ghost predicate Inv<J>(p: Pool<J>) {
    Roles(p) && Locked(p) && Queued(p) && Tickets(p.pc, p.taken, p.finished) && Drained(p) && WakersOwed(p)
      && NoLostWakeup(p)
  }

  // ---------------------------------------------------------------- the invariants are kept

  lemma InitInv<J>(cap: nat, workers: set<Tid>, clients: set<Tid>)
    ensures Inv(Init<J>(cap, workers, clients))
  {
    var p := Init<J>(cap, workers, clients);
    assert forall t :: t in p.pc ==> p.pc[t].Out? || p.pc[t] == WorkLock(false);
    assert Roles(p) && Locked(p) && Queued(p) && Drained(p) && WakersOwed(p);
    assert Tickets(p.pc, p.taken, p.finished) by {
      assert forall t :: t in p.pc ==> p.pc[t].Carried().None?;
    }
    SumZero(p.pc, PostWaits);
    SumZero(p.pc, WorkWaits);
  }

  /** The waiters that the step releases. */
  ghost function Released<J>(p: Pool<J>, s: Step<J>): set<Tid> {
    match s
    case Critical(_, wake) => One(wake)
    case Signal(_, wake) => One(wake)
    case WakeWorkers(_) => set u | u in p.pc && p.pc[u].WorkWait?
    case WakePosters(_) => set u | u in p.pc && p.pc[u].PostWait?
    case _ => {}
  }

  lemma ApplyPc<J>(p: Pool<J>, s: Step<J>)
    requires Enabled(p, s)
    ensures s.t in Apply(p, s).pc
    ensures Apply(p, s).pc == Update(p.pc, s.t, Apply(p, s).pc[s.t], Released(p, s))
  {
  }

  /** A step moves one thread; every other thread stays put or leaves its wait. */
  lemma Frame<J>(p: Pool<J>, s: Step<J>)
    requires Enabled(p, s)
    ensures Apply(p, s).pc.Keys == p.pc.Keys
    ensures Apply(p, s).workers == p.workers && Apply(p, s).cap == p.cap
    ensures forall u :: u in p.pc && u != s.t ==>
      || Apply(p, s).pc[u] == p.pc[u]
      || (p.pc[u].PostWait? && Apply(p, s).pc[u] == PostLock(p.pc[u].job, true))
      || (p.pc[u].WorkWait? && Apply(p, s).pc[u] == WorkLock(true))
  {
  }

  lemma RolesKept<J>(p: Pool<J>, s: Step<J>)
    requires Roles(p) && Enabled(p, s)
    ensures Roles(Apply(p, s))
  {
    Frame(p, s);
  }

  lemma LockedKept<J>(p: Pool<J>, s: Step<J>)
    requires Locked(p) && Enabled(p, s)
    ensures Locked(Apply(p, s))
  {
    Frame(p, s);
  }

  lemma QueuedKept<J>(p: Pool<J>, s: Step<J>)
    requires Queued(p) && Locked(p) && Drained(p) && Enabled(p, s)
    ensures Queued(Apply(p, s))
  {
    Frame(p, s);
  }

  lemma TicketsMove<J>(pcs: map<Tid, PC<J>>, t: Tid, next: PC<J>, woken: set<Tid>, taken: nat, finished: seq<nat>)
    requires Tickets(pcs, taken, finished) && t in pcs
    requires next.Carried() == pcs[t].Carried()
    ensures Tickets(Update(pcs, t, next, woken), taken, finished)
  {
    var pcs' := Update(pcs, t, next, woken);
    assert forall u :: u in pcs ==> pcs'[u].Carried() == pcs[u].Carried();
    forall k: nat | k < taken && k !in finished
      ensures exists u :: u in pcs' && pcs'[u].Carried() == Some(k)
    {
      var u :| u in pcs && pcs[u].Carried() == Some(k);
      assert pcs'[u].Carried() == Some(k);
    }
  }

  lemma TicketsTake<J>(pcs: map<Tid, PC<J>>, t: Tid, taken: nat, finished: seq<nat>)
    requires Tickets(pcs, taken, finished) && t in pcs && pcs[t].WorkHeld?
    ensures Tickets(Update(pcs, t, WorkNotify(taken), {}), taken + 1, finished)
  {
    var pcs' := Update(pcs, t, WorkNotify(taken), {});
    assert forall u :: u in pcs && u != t ==> pcs'[u].Carried() == pcs[u].Carried();
    forall k: nat | k < taken + 1 && k !in finished
      ensures exists u :: u in pcs' && pcs'[u].Carried() == Some(k)
    {
      var u: Tid := if k == taken then t else (var u: Tid :| u in pcs && pcs[u].Carried() == Some(k); u);
      assert pcs'[u].Carried() == Some(k);
    }
  }

  lemma TicketsFinish<J>(pcs: map<Tid, PC<J>>, t: Tid, taken: nat, finished: seq<nat>)
    requires Tickets(pcs, taken, finished) && t in pcs && pcs[t].WorkRun?
    ensures Tickets(Update(pcs, t, WorkLock(false), {}), taken, finished + [pcs[t].ticket])
  {
    var pcs' := Update(pcs, t, WorkLock(false), {});
    assert pcs[t].Carried() == Some(pcs[t].ticket);
    assert forall u :: u in pcs && u != t ==> pcs'[u].Carried() == pcs[u].Carried();
    forall k: nat | k < taken && k !in finished + [pcs[t].ticket]
      ensures exists u :: u in pcs' && pcs'[u].Carried() == Some(k)
    {
      var u :| u in pcs && pcs[u].Carried() == Some(k);
      assert pcs'[u].Carried() == Some(k);
    }
  }

  lemma TicketsKept<J>(p: Pool<J>, s: Step<J>)
    requires Tickets(p.pc, p.taken, p.finished) && Enabled(p, s)
    ensures Tickets(Apply(p, s).pc, Apply(p, s).taken, Apply(p, s).finished)
  {
    var p' := Apply(p, s);
    if s.Finish? {
      TicketsFinish(p.pc, s.t, p.taken, p.finished);
    } else if s.Critical? && p.pc[s.t].WorkHeld? && p.q != [] {
      TicketsTake(p.pc, s.t, p.taken, p.finished);
    } else {
      ApplyPc(p, s);
      assert p'.pc[s.t].Carried() == p.pc[s.t].Carried();
      TicketsMove(p.pc, s.t, p'.pc[s.t], Released(p, s), p.taken, p.finished);
    }
  }

  lemma DrainedKept<J>(p: Pool<J>, s: Step<J>)
    requires Drained(p) && Locked(p) && Enabled(p, s)
    ensures Drained(Apply(p, s))
  {
    Frame(p, s);
  }

  /** Once draining, the thread that owes a notify_all keeps owing it until it pays; then nobody is left waiting. */
  lemma WorkWakerKept<J>(p: Pool<J>, s: Step<J>, t: Tid)
    requires Drained(p) && WakersOwed(p) && Enabled(p, s)
    requires Apply(p, s).draining && t in Apply(p, s).pc && Apply(p, s).pc[t].WorkWait?
    ensures exists u :: u in Apply(p, s).pc && Apply(p, s).pc[u].ShutWakeWorkers?
  {
    Frame(p, s);
    var u: Tid := if p.draining then (var u: Tid :| u in p.pc && p.pc[u].ShutWakeWorkers?; u) else s.t;
    assert Apply(p, s).pc[u].ShutWakeWorkers?;
  }

  lemma PostWakerKept<J>(p: Pool<J>, s: Step<J>, t: Tid)
    requires Drained(p) && WakersOwed(p) && Enabled(p, s)
    requires Apply(p, s).draining && t in Apply(p, s).pc && Apply(p, s).pc[t].PostWait?
    ensures exists u ::
      u in Apply(p, s).pc && (Apply(p, s).pc[u].ShutWakeWorkers? || Apply(p, s).pc[u].ShutWakePosters?)
  {
    Frame(p, s);
    var u: Tid := if p.draining then
      (var u: Tid :| u in p.pc && (p.pc[u].ShutWakeWorkers? || p.pc[u].ShutWakePosters?); u) else s.t;
    assert Apply(p, s).pc[u].ShutWakeWorkers? || Apply(p, s).pc[u].ShutWakePosters?;
  }

  lemma WakersOwedKept<J>(p: Pool<J>, s: Step<J>)
    requires Drained(p) && WakersOwed(p) && Enabled(p, s)
    ensures WakersOwed(Apply(p, s))
  {
    var p' := Apply(p, s);
    if p'.draining {
      forall t | t in p'.pc
        ensures p'.pc[t].WorkWait? ==> exists u :: u in p'.pc && p'.pc[u].ShutWakeWorkers?
        ensures p'.pc[t].PostWait?
          ==> exists u :: u in p'.pc && (p'.pc[u].ShutWakeWorkers? || p'.pc[u].ShutWakePosters?)
      {
        if p'.pc[t].WorkWait? {
          WorkWakerKept(p, s, t);
        } else if p'.pc[t].PostWait? {
          PostWakerKept(p, s, t);
        }
      }
    }
  }

  // ---------------------------------------------------------------- no lost wakeup

  lemma SumAfter<J>(pcs: map<Tid, PC<J>>, t: Tid, next: PC<J>, wake: Option<Tid>, weight: PC<J> -> nat)
    requires t in pcs && (wake.Some? ==> wake.value in pcs && wake.value != t)
    ensures Sum(Update(pcs, t, next, One(wake)), weight)
         == Sum(pcs, weight) + weight(next) - weight(pcs[t])
          + (if wake.Some? then weight(Woken(pcs[wake.value])) - weight(pcs[wake.value]) else 0)
    ensures Sum(pcs, weight) >= weight(pcs[t])
  {
    SumUpdate(pcs, t, next, weight);
    SumSplit(pcs, t, weight);
    var moved := pcs[t := next];
    if wake.Some? {
      SumUpdate(moved, wake.value, Woken(pcs[wake.value]), weight);
      assert Update(pcs, t, next, One(wake)) == moved[wake.value := Woken(pcs[wake.value])];
    } else {
      assert Update(pcs, t, next, One(wake)) == moved;
    }
  }

  /** The control flow of one thread before draining: where it goes, whom it wakes, what it does to q_. */
  ghost predicate Row<J>(p: Pool<J>, p': Pool<J>, t: Tid, wake: Option<Tid>) {
    && t in p.pc && t in p'.pc
    && (wake.Some? ==> wake.value in p.pc && wake.value != t)
    && p'.pc == Update(p.pc, t, p'.pc[t], One(wake))
    && p'.cap == p.cap
    && match p.pc[t] {
       case Out => ((p'.pc[t].PostLock? && !p'.pc[t].woken) || p'.pc[t].ShutLock?) && wake == None && p'.q == p.q
       case PostLock(job, woken) => p'.pc[t] == PostHeld(job, woken) && wake == None && p'.q == p.q
       case PostHeld(job, woken) =>
         if Full(p) then p'.pc[t] == PostWait(job) && wake == None && p'.q == p.q
         else p'.pc[t] == Out && PicksWorker(p.pc, wake) && p'.q == p.q + [job]
       case PostWait(job) => p'.pc[t] == PostLock(job, true) && wake == None && p'.q == p.q
       case WorkLock(woken) => p'.pc[t] == WorkHeld(woken) && wake == None && p'.q == p.q
       case WorkHeld(_) =>
         if p.q == [] then p'.pc[t] == WorkWait && wake == None && p'.q == p.q
         else p'.pc[t].WorkNotify? && wake == None && p'.q == p.q[1..]
       case WorkWait => p'.pc[t] == WorkLock(true) && wake == None && p'.q == p.q
       case WorkNotify(k) => p'.pc[t] == WorkRun(k) && PicksPoster(p.pc, wake) && p'.q == p.q
       case WorkRun(_) => p'.pc[t] == WorkLock(false) && wake == None && p'.q == p.q
       case ShutLock => p'.pc[t] == ShutHeld && wake == None && p'.q == p.q
       case _ => false
    }
  }

  lemma StepIsRow<J>(p: Pool<J>, s: Step<J>)
    requires Inv(p) && Enabled(p, s) && !Apply(p, s).draining
    ensures Row(p, Apply(p, s), s.t, if s.Critical? || s.Signal? then s.wake else None)
  {
    ApplyPc(p, s);
  }

  ghost predicate IsWaiter<J>(pcs: map<Tid, PC<J>>, t: Tid, wake: Option<Tid>) {
    wake.Some? ==> wake.value in pcs && wake.value != t
  }

  lemma RowWaiter<J>(p: Pool<J>, p': Pool<J>, t: Tid, wake: Option<Tid>)
    requires Row(p, p', t, wake)
    ensures IsWaiter(p.pc, t, wake)
    ensures p.pc[t].WorkNotify? || p.pc[t].PostHeld? || wake.None?
    ensures wake.Some? ==> if p.pc[t].WorkNotify? then p.pc[wake.value].PostWait? else p.pc[wake.value].WorkWait?
  {
  }

  lemma NotEmptyAfter<J>(p: Pool<J>, p': Pool<J>, t: Tid, wake: Option<Tid>)
    requires Row(p, p', t, wake)
    ensures NotEmpty(p').waiting == NotEmpty(p).waiting + WorkWaits(p'.pc[t]) - WorkWaits(p.pc[t])
      - if wake.Some? && p.pc[t].PostHeld? then 1 else 0
    ensures NotEmpty(p').awakened == NotEmpty(p).awakened + WorkWoken(p'.pc[t]) - WorkWoken(p.pc[t])
      + if wake.Some? && p.pc[t].PostHeld? then 1 else 0
    ensures NotEmpty(p).waiting >= WorkWaits(p.pc[t]) && NotEmpty(p).awakened >= WorkWoken(p.pc[t])
    ensures p.pc[t].PostHeld? && !Full(p) && wake.None? ==> NotEmpty(p).waiting == 0
    ensures p.pc[t].PostHeld? && wake.Some? ==> NotEmpty(p).waiting > 0
  {
    RowWaiter(p, p', t, wake);
    SumAfter(p.pc, t, p'.pc[t], wake, WorkWaits);
    SumAfter(p.pc, t, p'.pc[t], wake, WorkWoken);
    SumZero(p.pc, WorkWaits);
  }

  /** Before draining, every step moves the not_empty_ tally as the counting argument allows. */
  lemma NotEmptyMoves<J>(p: Pool<J>, p': Pool<J>, t: Tid, wake: Option<Tid>)
    requires Row(p, p', t, wake)
    ensures Moves(NotEmpty(p), NotEmpty(p'))
  {
    var a, b := NotEmpty(p), NotEmpty(p');
    NotEmptyAfter(p, p', t, wake);
    if p.pc[t].WorkHeld? {
      assert if p.q == [] then Looks(a, b.(waiting := b.waiting - 1)) else Looks(a.(avail := a.avail - 1), b);
    } else if p.pc[t].PostHeld? {
      assert a == b || b == Notify(a.(avail := a.avail + 1));
    } else if p.pc[t].WorkWait? {
      assert b == Notify(a);
    } else {
      assert a == b;
    }
  }

  lemma NotFullAfter<J>(p: Pool<J>, p': Pool<J>, t: Tid, wake: Option<Tid>)
    requires Row(p, p', t, wake) && |p.q| <= p.cap && |p'.q| <= p.cap
    ensures NotFull(p').waiting == NotFull(p).waiting + PostWaits(p'.pc[t]) - PostWaits(p.pc[t])
      - if wake.Some? && p.pc[t].WorkNotify? then 1 else 0
    ensures NotFull(p').awakened == NotFull(p).awakened + PostWoken(p'.pc[t]) - PostWoken(p.pc[t])
      + if wake.Some? && p.pc[t].WorkNotify? then 1 else 0
    ensures NotFull(p').owed == NotFull(p).owed + OwesNotFull(p'.pc[t]) - OwesNotFull(p.pc[t])
    ensures NotFull(p).waiting >= PostWaits(p.pc[t]) && NotFull(p).awakened >= PostWoken(p.pc[t])
    ensures NotFull(p).owed >= OwesNotFull(p.pc[t])
    ensures p.pc[t].WorkNotify? && wake.None? ==> NotFull(p).waiting == 0
    ensures p.pc[t].WorkNotify? && wake.Some? ==> NotFull(p).waiting > 0
  {
    RowWaiter(p, p', t, wake);
    SumAfter(p.pc, t, p'.pc[t], wake, PostWaits);
    SumAfter(p.pc, t, p'.pc[t], wake, PostWoken);
    SumAfter(p.pc, t, p'.pc[t], wake, OwesNotFull);
    SumZero(p.pc, PostWaits);
  }

  /** The same for not_full_, when the queue is bounded. */
  lemma NotFullMoves<J>(p: Pool<J>, p': Pool<J>, t: Tid, wake: Option<Tid>)
    requires Row(p, p', t, wake) && p.cap != 0 && |p.q| <= p.cap && |p'.q| <= p.cap
    ensures Moves(NotFull(p), NotFull(p'))
  {
    var a, b := NotFull(p), NotFull(p');
    NotFullAfter(p, p', t, wake);
    if p.pc[t].PostHeld? {
      assert if Full(p) then Looks(a, b.(waiting := b.waiting - 1)) else Looks(a.(avail := a.avail - 1), b);
    } else if p.pc[t].WorkHeld? {
      assert a == b || b == a.(avail := a.avail + 1, owed := a.owed + 1);
    } else if p.pc[t].WorkNotify? {
      assert b == Notify(a.(owed := a.owed - 1));
    } else if p.pc[t].PostWait? {
      assert b == Notify(a);
    } else {
      assert a == b;
    }
  }

  /** Every step keeps the invariant, so it holds in every reachable state. */
  lemma {:induction false} StepKeepsInv<J>(p: Pool<J>, s: Step<J>)
    requires Inv(p) && Enabled(p, s)
    ensures Inv(Apply(p, s))
  {
    Frame(p, s);
    RolesKept(p, s);
    LockedKept(p, s);
    QueuedKept(p, s);
    TicketsKept(p, s);
    DrainedKept(p, s);
    WakersOwedKept(p, s);
    var p' := Apply(p, s);
    if !p'.draining {
      assert !p.draining;
      StepIsRow(p, s);
      var wake := if s.Critical? || s.Signal? then s.wake else None;
      NotEmptyMoves(p, p', s.t, wake);
      CoveredKept(NotEmpty(p), NotEmpty(p'));
      if p.cap != 0 {
        NotFullMoves(p, p', s.t, wake);
        CoveredKept(NotFull(p), NotFull(p'));
      }
    }
  }

  /** `steps` lead from p to p'. */
  ghost predicate Reaches<J>(p: Pool<J>, steps: seq<Step<J>>, p': Pool<J>)
    decreases |steps|
  {
    if steps == [] then p' == p
    else Enabled(p, steps[0]) && Reaches(Apply(p, steps[0]), steps[1..], p')
  }

  lemma {:induction false} ReachableInv<J>(p: Pool<J>, steps: seq<Step<J>>, p': Pool<J>)
    requires Inv(p) && Reaches(p, steps, p')
    ensures Inv(p')
    decreases |steps|
  {
    if steps != [] {
      var next := Apply(p, steps[0]);
      assert Inv(next) by {
        StepKeepsInv(p, steps[0]);
      }
      ReachableInv(next, steps[1..], p');
    }
  }

  /** No wakeup is lost on any run, for any numbers of posters and workers. */
  lemma NoLostWakeupOnAnyRun<J>(cap: nat, workers: set<Tid>, clients: set<Tid>, steps: seq<Step<J>>, p: Pool<J>)
    requires Reaches(Init(cap, workers, clients), steps, p)
    ensures Queued(p)
    ensures !p.draining && Sum(p.pc, WorkWaits) > 0 ==> |p.q| <= Sum(p.pc, WorkWoken)
    ensures !p.draining && Sum(p.pc, PostWaits) > 0 ==>
      p.cap - |p.q| <= Sum(p.pc, OwesNotFull) + Sum(p.pc, PostWoken)
    ensures WakersOwed(p)
  {
    InitInv<J>(cap, workers, clients);
    ReachableInv(Init(cap, workers, clients), steps, p);
    SumZero(p.pc, PostWaits);
  }

  // ---------------------------------------------------------------- one worker is a strict FIFO executor

  /** With a single worker w, tickets finish in the order 0, 1, 2, ... with at most one in hand. */
  ghost predicate InOrder<J>(p: Pool<J>, w: Tid) {
    && p.workers == {w} && w in p.pc
    && (forall i :: 0 <= i < |p.finished| ==> p.finished[i] == i)
    && match p.pc[w].Carried()
       case None => p.taken == |p.finished|
       case Some(k) => k == |p.finished| && p.taken == k + 1
  }

  lemma InOrderKept<J>(p: Pool<J>, s: Step<J>, w: Tid)
    requires Roles(p) && InOrder(p, w) && Enabled(p, s)
    ensures InOrder(Apply(p, s), w)
  {
    Frame(p, s);
    if s.t != w {
      assert !p.pc[s.t].Work();
    }
  }

  // ---------------------------------------------------------------- a step seen from outside

  /** Steps the pool takes by itself: not a new call, not the end of a job, not a spurious wakeup. */
  predicate Internal<J>(s: Step<J>) {
    !s.Enter? && !s.CallShutdown? && !s.Finish? && !s.Spurious?
  }

  ghost predicate SameLedger<J>(p: Pool<J>, p': Pool<J>) {
    && p'.accepted == p.accepted && p'.taken == p.taken && p'.finished == p.finished
    && p'.dropped == p.dropped && p'.draining == p.draining
  }

  ghost predicate StaysOrWakes<J>(a: PC<J>, b: PC<J>) {
    b == a || (a.PostWait? && b == PostLock(a.job, true)) || (a.WorkWait? && b == WorkLock(true))
  }

  /** All that a step the pool takes by itself, or a spurious wakeup, can do. */
  ghost predicate Flow<J>(p: Pool<J>, p': Pool<J>, t: Tid) {
    && t in p.pc && p'.pc.Keys == p.pc.Keys && p'.workers == p.workers && p'.cap == p.cap
    && (forall u :: u in p.pc && u != t ==> StaysOrWakes(p.pc[u], p'.pc[u]))
    && var a, b := p.pc[t], p'.pc[t];
       if a.Post() then
         || (b.Post() && b.job == a.job && SameLedger(p, p'))
         || (b.Out? && p.draining && SameLedger(p.(dropped := p.dropped + [a.job]), p'))
         || (b.Out? && !p.draining && SameLedger(p.(accepted := p.accepted + [a.job]), p'))
       else if a.WorkNotify? then
         b == WorkRun(a.ticket) && SameLedger(p, p')
       else if a.Work() && !a.WorkRun? && !a.WorkDone? then
         || ((b.WorkLock? || b.WorkHeld? || b.WorkWait?) && SameLedger(p, p'))
         || (b.WorkDone? && p.draining && p.q == [] && SameLedger(p, p'))
         || (b == WorkNotify(p.taken) && p.q != [] && SameLedger(p.(taken := p.taken + 1), p'))
       else if a.ShutLock? || a.ShutHeld? || Shutting(a) then
         || (b.ShutHeld? && SameLedger(p, p'))
         || (b.ShutWakeWorkers? && SameLedger(p.(draining := true), p'))
         || (Shutting(b) && p.draining && SameLedger(p, p'))
         || (b.Out? && p.draining && (forall w <- p.workers :: w in p.pc ==> p.pc[w].WorkDone?) && SameLedger(p, p'))
       else
         false
  }

  lemma StepIsFlow<J>(p: Pool<J>, s: Step<J>)
    requires Drained(p) && Enabled(p, s) && (Internal(s) || s.Spurious?)
    ensures Flow(p, Apply(p, s), s.t)
  {
    Frame(p, s);
  }

  // ---------------------------------------------------------------- progress

  ghost predicate Quiet<J(!new)>(p: Pool<J>) {
    forall s: Step<J> :: Internal(s) ==> !Enabled(p, s)
  }

  ghost predicate AllBusy<J>(p: Pool<J>) {
    forall w <- p.workers :: w in p.pc && p.pc[w].WorkRun?
  }

  /** A thread that owns the lock can always run its critical section. */
  lemma OwnerCanRun<J>(p: Pool<J>) returns (s: Step<J>)
    requires Locked(p) && p.lock.Some?
    ensures Internal(s) && Enabled(p, s)
  {
    var h := p.lock.value;
    if p.pc[h].PostHeld? && !p.draining && !Full(p) {
      var wake := if exists w :: w in p.pc && p.pc[w].WorkWait? then
        (var w :| w in p.pc && p.pc[w].WorkWait?; Some(w)) else None;
      s := Critical(h, wake);
    } else {
      s := Critical(h, None);
    }
  }

  ghost predicate AtRest<J>(p: Pool<J>, c: PC<J>) {
    || c.Out? || c.PostWait? || c.WorkWait? || c.WorkRun? || c.WorkDone?
    || (c.ShutJoin? && exists w :: w in p.workers && w in p.pc && !p.pc[w].WorkDone?)
  }

  /** In a quiet pool nobody is half way through anything. */
  lemma QuietThreads<J(!new)>(p: Pool<J>, t: Tid)
    requires Locked(p) && Quiet(p) && t in p.pc
    ensures AtRest(p, p.pc[t])
  {
    if p.lock.Some? {
      var s := OwnerCanRun(p);
    }
    var wake := if exists w :: w in p.pc && p.pc[w].PostWait? then
      (var w :| w in p.pc && p.pc[w].PostWait?; Some(w)) else None;
    assert PicksPoster(p.pc, wake);
    assert !Enabled(p, Acquire(t));
    assert !Enabled(p, Signal(t, wake));
    assert !Enabled(p, WakeWorkers(t));
    assert !Enabled(p, WakePosters(t));
    assert !Enabled(p, Join(t));
  }

  ghost predicate Rests<J>(p: Pool<J>) {
    forall t :: t in p.pc ==> AtRest(p, p.pc[t])
  }

  lemma QuietWorkers<J>(p: Pool<J>)
    requires Covered(NotEmpty(p)) && Rests(p)
    ensures forall t :: t in p.pc && p.pc[t].WorkWait? ==> p.q == []
  {
    SumZero(p.pc, WorkWoken);
    SumZero(p.pc, WorkWaits);
    if NotEmpty(p).waiting > 0 {
      QuietMeansExhausted(NotEmpty(p));
    }
  }

  lemma QuietPosters<J>(p: Pool<J>)
    requires p.cap != 0 && |p.q| <= p.cap && Covered(NotFull(p)) && Rests(p)
    ensures forall t :: t in p.pc && p.pc[t].PostWait? ==> Full(p)
  {
    SumZero(p.pc, PostWoken);
    SumZero(p.pc, OwesNotFull);
    SumZero(p.pc, PostWaits);
    if NotFull(p).waiting > 0 {
      QuietMeansExhausted(NotFull(p));
    }
  }

  lemma QuietTallies<J>(p: Pool<J>)
    requires Queued(p) && NoLostWakeup(p) && Rests(p)
    ensures !p.draining ==> forall t :: t in p.pc ==>
      (p.pc[t].WorkWait? ==> p.q == []) && (p.pc[t].PostWait? ==> Full(p))
  {
    if !p.draining {
      QuietWorkers(p);
      if p.cap != 0 {
        QuietPosters(p);
      }
    }
  }

  /** If a poster rests on a full queue then no worker is idle. */
  lemma FullMeansBusy<J>(p: Pool<J>)
    requires Roles(p) && Drained(p) && Rests(p) && Full(p) && !p.draining
    requires forall t :: t in p.pc && p.pc[t].WorkWait? ==> p.q == []
    ensures AllBusy(p)
  {
  }

  lemma QuietRests<J(!new)>(p: Pool<J>)
    requires Locked(p) && Quiet(p)
    ensures Rests(p)
  {
    forall t | t in p.pc
      ensures AtRest(p, p.pc[t])
    {
      QuietThreads(p, t);
    }
  }

  /** While draining, whoever would wake the waiters is not at rest. */
  lemma DrainingWaiters<J>(p: Pool<J>)
    requires WakersOwed(p) && Rests(p) && p.draining
    ensures forall t :: t in p.pc ==> !p.pc[t].WorkWait? && !p.pc[t].PostWait?
  {
  }

  lemma JoinWaitsForJob<J>(p: Pool<J>, t: Tid)
    requires Roles(p) && Drained(p) && WakersOwed(p) && Rests(p) && t in p.pc && p.pc[t].ShutJoin?
    ensures exists w :: w in p.workers && w in p.pc && p.pc[w].WorkRun?
  {
    DrainingWaiters(p);
    var w :| w in p.workers && w in p.pc && !p.pc[w].WorkDone?;
    assert p.pc[w].Work() && AtRest(p, p.pc[w]);
  }

  /**
   The pool only ever stands still for a good reason: idle workers wait because the queue is empty,
   posters wait because it is full and every worker is busy, shutdown() waits for a running job.
   */
  lemma {:induction false} StuckOnlyWhenBusy<J(!new)>(p: Pool<J>)
    requires Inv(p) && Quiet(p)
    ensures Rests(p)
    ensures forall t :: t in p.pc && p.pc[t].WorkWait? ==> p.q == [] && !p.draining
    ensures forall t :: t in p.pc && p.pc[t].PostWait? ==> Full(p) && !p.draining && AllBusy(p)
    ensures forall t :: t in p.pc && p.pc[t].ShutJoin? ==> exists w :: w in p.workers && w in p.pc && p.pc[w].WorkRun?
  {
    QuietRests(p);
    RestsForReason(p);
  }

  lemma RestsForReason<J>(p: Pool<J>)
    requires Roles(p) && Queued(p) && Drained(p) && WakersOwed(p) && NoLostWakeup(p) && Rests(p)
    ensures forall t :: t in p.pc && p.pc[t].WorkWait? ==> p.q == [] && !p.draining
    ensures forall t :: t in p.pc && p.pc[t].PostWait? ==> Full(p) && !p.draining && AllBusy(p)
    ensures forall t :: t in p.pc && p.pc[t].ShutJoin? ==> exists w :: w in p.workers && w in p.pc && p.pc[w].WorkRun?
  {
    if p.draining {
      DrainingWaiters(p);
    } else {
      QuietTallies(p);
      if Full(p) {
        FullMeansBusy(p);
      }
    }
    forall t | t in p.pc && p.pc[t].ShutJoin?
      ensures exists w :: w in p.workers && w in p.pc && p.pc[w].WorkRun?
    {
      JoinWaitsForJob(p, t);
    }
  }

  /** What is left to do inside the pool; n is the number of threads. */
  function Weight<J>(n: nat, pc: PC<J>): nat {
    match pc
    case Out => 0
    case PostLock(_, _) => 10
    case PostHeld(_, _) => 9
    case PostWait(_) => 8
    case WorkLock(_) => 3
    case WorkHeld(_) => 2
    case WorkWait => 1
    case WorkNotify(_) => 7
    case WorkRun(_) => 4
    case WorkDone => 0
    case ShutLock => 4 * n + 5
    case ShutHeld => 4 * n + 4
    case ShutWakeWorkers => 4 * n + 3
    case ShutWakePosters => 2 * n + 2
    case ShutJoin => 1
  }

  function Weigher<J>(n: nat): PC<J> -> nat {
    pc => Weight(n, pc)
  }

  ghost function Measure<J>(p: Pool<J>): nat {
    Sum(p.pc, Weigher(|p.pc|)) + 6 * |p.q|
  }

  function WakeGain<J>(pc: PC<J>): nat { if pc.PostWait? || pc.WorkWait? then 2 else 0 }

  lemma SumAfterWakeAll<J>(pcs: map<Tid, PC<J>>, t: Tid, next: PC<J>, woken: set<Tid>, n: nat)
    requires t in pcs && |pcs| == n
    ensures Sum(Update(pcs, t, next, woken), Weigher(n)) + Weight(n, pcs[t])
         <= Sum(pcs, Weigher(n)) + Weight(n, next) + 2 * n
  {
    var moved := pcs[t := next];
    SumUpdate(pcs, t, next, Weigher(n));
    assert moved.Keys == pcs.Keys;
    assert |moved| == |moved.Keys| == |pcs.Keys|;
    SumGain(moved, Update(pcs, t, next, woken), Weigher(n), WakeGain);
    SumAtMostTwice(moved, WakeGain);
  }

  lemma SizeKept<J>(p: Pool<J>, s: Step<J>)
    requires Enabled(p, s)
    ensures |Apply(p, s).pc| == |p.pc|
  {
    Frame(p, s);
    assert |Apply(p, s).pc| == |Apply(p, s).pc.Keys| == |p.pc.Keys| == |p.pc|;
  }

  /** The stepping thread pays for everything the step does. */
  lemma StepPays<J>(p: Pool<J>, s: Step<J>, n: nat)
    requires Enabled(p, s) && !s.Enter? && !s.CallShutdown? && !s.Spurious?
    requires s.t in Apply(p, s).pc
    ensures Weight(n, Apply(p, s).pc[s.t]) + 6 * |Apply(p, s).q|
      + (if s.WakeWorkers? || s.WakePosters? then 2 * n
         else if (s.Critical? || s.Signal?) && s.wake.Some? then 2 else 0)
      < Weight(n, p.pc[s.t]) + 6 * |p.q|
  {
  }

  /** Every internal step and every finished job brings the pool closer to rest. */
  lemma StepDecreases<J>(p: Pool<J>, s: Step<J>)
    requires Locked(p) && Enabled(p, s) && !s.Enter? && !s.CallShutdown? && !s.Spurious?
    ensures Measure(Apply(p, s)) < Measure(p)
    ensures |Apply(p, s).pc| == |p.pc|
  {
    var p' := Apply(p, s);
    var n := |p.pc|;
    Frame(p, s);
    SizeKept(p, s);
    ApplyPc(p, s);
    StepPays(p, s, n);
    if s.WakeWorkers? || s.WakePosters? {
      SumAfterWakeAll(p.pc, s.t, p'.pc[s.t], Released(p, s), n);
    } else {
      var wake := if s.Critical? || s.Signal? then s.wake else None;
      SumAfter(p.pc, s.t, p'.pc[s.t], wake, Weigher(n));
    }
  }

  lemma CallPays<J>(p: Pool<J>, s: Step<J>, n: nat)
    requires Enabled(p, s) && (s.Enter? || s.CallShutdown? || s.Spurious?)
    ensures s.t in Apply(p, s).pc && Apply(p, s).q == p.q
    ensures Apply(p, s).pc == Update(p.pc, s.t, Apply(p, s).pc[s.t], {})
    ensures Weight(n, Apply(p, s).pc[s.t]) - Weight(n, p.pc[s.t])
         == if s.Enter? then 10 else if s.CallShutdown? then 4 * n + 5 else 2
  {
  }

  lemma OtherStepsCost<J>(p: Pool<J>, s: Step<J>)
    requires Enabled(p, s) && (s.Enter? || s.CallShutdown? || s.Spurious?)
    ensures Measure(Apply(p, s)) == Measure(p)
      + if s.Enter? then 10 else if s.CallShutdown? then 4 * |p.pc| + 5 else 2
    ensures |Apply(p, s).pc| == |p.pc|
  {
    var n := |p.pc|;
    SizeKept(p, s);
    CallPays(p, s, n);
    assert One(None) == {};
    SumAfter(p.pc, s.t, Apply(p, s).pc[s.t], None, Weigher(n));
  }
}
