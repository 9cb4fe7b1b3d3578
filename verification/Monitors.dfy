/**
 The code between taking and leaving the lock, on the fields that the lock guards: the critical
 sections of ThreadPool::post, run and shutdown and of mysql::ConnectionPool::acquire and release.

 Each method is one evaluation of the section, up to the point where the thread unlocks or waits, and
 is proved to be the Critical step of the step system, whatever the other threads are doing.
 */
module Monitors {
  import opened Common
  import TP = ThreadPool
  import CP = ConnectionPool

  /** What mtx_ of the thread pool guards. */
  class QueueMonitor<J> {
    const cap: nat
    var q: seq<J>
    var draining: bool

    constructor (cap: nat)
      ensures this.cap == cap && q == [] && !draining
    {
      this.cap := cap;
      q, draining := [], false;
    }

    ghost predicate Guards(p: TP.Pool<J>)
      reads this
    {
      p.cap == cap && p.q == q && p.draining == draining
    }

    /** post(): wait while the queue is full, drop the job if draining, or queue it. */
    method Post(job: J, ghost p: TP.Pool<J>, ghost t: TP.Tid, ghost wake: Option<TP.Tid>) returns (next: TP.PC<J>)
      requires Guards(p) && t in p.pc && p.pc[t].PostHeld? && p.pc[t].job == job
      modifies this
      ensures Guards(TP.ApplyCritical(p, t, wake)) && next == TP.ApplyCritical(p, t, wake).pc[t]
    {
      if cap != 0 && !(|q| < cap || draining) {
        return TP.PostWait(job);
      }
      if draining {
        return TP.Out;
      }
      q := q + [job];
      return TP.Out;
    }

    /** run(): wait while there is nothing to do, leave when draining, or take the front job. */
    method Take(ghost p: TP.Pool<J>, ghost t: TP.Tid, ghost wake: Option<TP.Tid>)
      returns (job: Option<J>, waits: bool)
      requires Guards(p) && t in p.pc && p.pc[t].WorkHeld?
      modifies this
      ensures Guards(TP.ApplyCritical(p, t, wake))
      ensures match job
        case Some(j) => !waits && old(q) == [j] + q && TP.ApplyCritical(p, t, wake).pc[t] == TP.WorkNotify(p.taken)
        case None => TP.ApplyCritical(p, t, wake).pc[t] == if waits then TP.WorkWait else TP.WorkDone
    {
      if q == [] && !draining {
        return None, true;
      }
      if q == [] {
        return None, false;
      }
      job, waits := Some(q[0]), false;
      q := q[1..];
    }

    /** shutdown() */
    method Drain(ghost p: TP.Pool<J>, ghost t: TP.Tid, ghost wake: Option<TP.Tid>)
      requires Guards(p) && t in p.pc && p.pc[t].ShutHeld?
      modifies this
      ensures Guards(TP.ApplyCritical(p, t, wake)) && TP.ApplyCritical(p, t, wake).pc[t] == TP.ShutWakeWorkers
    {
      draining := true;
    }
  }

  /** What mtx_ of the connection pool guards. */
  class IdleMonitor {
    const size: nat
    var idle: seq<CP.Conn>
    var created: int

    constructor (poolSize: nat)
      ensures size == (if poolSize == 0 then 1 else poolSize) && idle == [] && created == 0
    {
      size := if poolSize == 0 then 1 else poolSize;
      idle, created := [], 0;
    }

    ghost predicate Guards(p: CP.Pool)
      reads this
    {
      p.size == size && p.idle == idle && p.created == created
    }

    /** acquire(): borrow an idle connection, count one to be created, or wait. */
    method Acquire(ghost p: CP.Pool, ghost t: CP.Tid, ghost wake: Option<CP.Tid>) returns (next: CP.PC)
      requires Guards(p) && t in p.pc && p.pc[t].AcqHeld?
      modifies this
      ensures Guards(CP.ApplyCritical(p, t, wake)) && next == CP.ApplyCritical(p, t, wake).pc[t]
    {
      if idle != [] {
        next := CP.Using(idle[0]);
        idle := idle[1..];
        return;
      }
      if created < size {
        created := created + 1;
        return CP.Creating;
      }
      return CP.AcqWait;
    }

    /** acquire(): create() threw. */
    method GiveUp(ghost p: CP.Pool, ghost t: CP.Tid, ghost wake: Option<CP.Tid>)
      requires Guards(p) && t in p.pc && p.pc[t].FailHeld?
      modifies this
      ensures Guards(CP.ApplyCritical(p, t, wake)) && CP.ApplyCritical(p, t, wake).pc[t] == CP.Out
    {
      created := created - 1;
    }

    /** release() */
    method Release(conn: CP.Conn, ghost p: CP.Pool, ghost t: CP.Tid, ghost wake: Option<CP.Tid>)
      requires Guards(p) && t in p.pc && p.pc[t] == CP.RelHeld(conn)
      modifies this
      ensures Guards(CP.ApplyCritical(p, t, wake)) && CP.ApplyCritical(p, t, wake).pc[t] == CP.RelNotify
    {
      idle := idle + [conn];
    }
  }
}
