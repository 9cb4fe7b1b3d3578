/**
 The program never gets stuck, and every run of it comes to an end, provided only that jobs
 terminate and that spurious wakeups are finitely many.
 */
module RuntimeProgress {
  import opened Common
  import opened Counting
  import opened Models
  import opened ThreadPool
  import opened Runtime
  import opened RuntimeOrder

  predicate IsSpurious(m: Move) {
    (m.FilesStep? && m.f.Spurious?) || (m.SerialStep? && m.s.Spurious?)
  }

  // ---------------------------------------------------------------- no deadlock

  /** With both pools at rest and no job running, the loop thread is outside both. */
  lemma {:induction false} QuietMeansLoopOutside(p: Program)
    requires Base(p) && Quiet(p.files) && Quiet(p.serial)
    requires forall w <- p.files.workers :: !p.files.pc[w].WorkRun?
    requires !p.serial.pc[SERIAL_WORKER].WorkRun?
    ensures LoopOutside(p)
  {
    var w :| w in p.files.workers;
    RestsOutside(p.files, LOOP, w);
    RestsOutside(p.serial, LOOP, SERIAL_WORKER);
  }

  /** With no worker running a job, a quiet pool holds nobody but its waiting or finished workers. */
  lemma RestsOutside<J(!new)>(pool: Pool<J>, t: Tid, w: Tid)
    requires Inv(pool) && Quiet(pool) && t in pool.pc && t !in pool.workers && w in pool.workers
    requires forall u <- pool.workers :: !pool.pc[u].WorkRun?
    ensures pool.pc[t].Out?
  {
    StuckOnlyWhenBusy(pool);
    assert AtRest(pool, pool.pc[t]);
    assert !AllBusy(pool);
  }

  /** A file worker blocked on a full serial_ is not stuck: serial_'s worker is then running a job. */
  lemma {:induction false} QuietMeansLinksPosted(p: Program, w: Tid)
    requires Base(p) && Quiet(p.serial) && !p.serial.pc[SERIAL_WORKER].WorkRun? && w in p.files.workers
    ensures p.serial.pc[w].Out?
  {
    RestsOutside(p.serial, w, SERIAL_WORKER);
  }

  /** Until start() returns, some thread can take a step that is not a spurious wakeup. */
  lemma {:induction false} NeverStuck(p: Program) returns (m: Move)
    requires Base(p) && p.phase != Returned
    ensures CanMove(p, m) && !IsSpurious(m)
  {
    if f: Step<FileJob> :| Internal(f) && Enabled(p.files, f) {
      m := FilesStep(f);
    } else if s: Step<SerialJob> :| Internal(s) && Enabled(p.serial, s) {
      m := SerialStep(s);
    } else if p.serial.pc[SERIAL_WORKER].WorkRun? {
      m := EndSerialJob;
    } else if w :| w in p.files.workers && p.files.pc[w].WorkRun? {
      QuietMeansLinksPosted(p, w);
      m := EndFileJob(w);
    } else {
      QuietMeansLoopOutside(p);
      m := match p.phase
        case Listening => LoopStop
        case DrainingFiles => LoopNext
        case _ => LoopReturn;
    }
  }

  // ---------------------------------------------------------------- termination

  function PhaseWeight(phase: Phase, nf: nat, ns: nat): nat {
    match phase
    case Listening => 48 * nf + 4 * ns + 68
    case DrainingFiles => 4 * ns + 7
    case DrainingSerial => 1
    case Returned => 0
  }

  /** What is left to do: inside the pools, links not yet posted, script not yet posted, shutdown. */
  ghost function Remaining(p: Program): int {
    12 * Measure(p.files) + 11 * (|p.files.accepted| - |p.posted|) + Measure(p.serial)
    + 121 * (|p.script| - p.pos) + PhaseWeight(p.phase, |p.files.pc|, |p.serial.pc|)
  }

  lemma {:induction false} RemainingNonNegative(p: Program)
    requires Base(p) && p.pos <= |p.script|
    ensures Remaining(p) >= 0
  {
    SubsetSize(p.posted, Below(|p.files.accepted|));
  }

  lemma {:induction false} FilesStepRemaining(p: Program, f: Step<FileJob>)
    requires Base(p) && CanMove(p, FilesStep(f))
    ensures Remaining(Moved(p, FilesStep(f))) <= Remaining(p) + if f.Spurious? then 24 else -1
  {
    FilesAccept(p.files, f);
    if f.Spurious? {
      OtherStepsCost(p.files, f);
    } else {
      StepDecreases(p.files, f);
    }
  }

  lemma FilesAccept(pool: Pool<FileJob>, f: Step<FileJob>)
    requires Enabled(pool, f)
    ensures |Apply(pool, f).accepted| <= |pool.accepted| + if f.Critical? then 1 else 0
  {
  }

  lemma {:induction false} SerialStepRemaining(p: Program, s: Step<SerialJob>)
    requires Base(p) && CanMove(p, SerialStep(s))
    ensures Remaining(Moved(p, SerialStep(s))) <= Remaining(p) + if s.Spurious? then 24 else -1
  {
    if s.Spurious? {
      OtherStepsCost(p.serial, s);
    } else {
      StepDecreases(p.serial, s);
    }
  }

  lemma LoopPostRemaining(p: Program)
    requires CanMove(p, LoopPost)
    ensures Remaining(Moved(p, LoopPost)) < Remaining(p)
  {
    match p.script[p.pos] {
      case ToFiles(job) => OtherStepsCost(p.files, Enter(LOOP, job));
      case ToSerial(job) => OtherStepsCost(p.serial, Enter(LOOP, job));
    }
  }

  lemma LoopMoveRemaining(p: Program, m: Move)
    requires CanMove(p, m) && (m.LoopPost? || m.LoopStop? || m.LoopNext? || m.LoopReturn?)
    ensures Remaining(Moved(p, m)) < Remaining(p)
  {
    if m.LoopPost? {
      LoopPostRemaining(p);
    } else if m.LoopStop? {
      OtherStepsCost(p.files, CallShutdown(LOOP));
    } else if m.LoopNext? {
      OtherStepsCost(p.serial, CallShutdown(LOOP));
    }
  }

  lemma JobMoveRemaining(p: Program, m: Move)
    requires Locked(p.files) && Locked(p.serial) && CanMove(p, m) && (m.PostLink? || m.EndFileJob? || m.EndSerialJob?)
    ensures Remaining(Moved(p, m)) < Remaining(p)
  {
    if m.PostLink? {
      OtherStepsCost(p.serial, Enter(m.w, LinkOf(p, p.files.pc[m.w].ticket)));
    } else if m.EndFileJob? {
      StepDecreases(p.files, Finish(m.w));
    } else {
      StepDecreases(p.serial, Finish(SERIAL_WORKER));
    }
  }

  lemma {:induction false} MoveRemaining(p: Program, m: Move)
    requires Base(p) && CanMove(p, m)
    ensures Remaining(Moved(p, m)) <= Remaining(p) + if IsSpurious(m) then 24 else -1
  {
    match m {
      case FilesStep(f) => FilesStepRemaining(p, f);
      case SerialStep(s) => SerialStepRemaining(p, s);
      case LoopPost => LoopMoveRemaining(p, m);
      case LoopStop => LoopMoveRemaining(p, m);
      case LoopNext => LoopMoveRemaining(p, m);
      case LoopReturn => LoopMoveRemaining(p, m);
      case PostLink(_) => JobMoveRemaining(p, m);
      case EndFileJob(_) => JobMoveRemaining(p, m);
      case EndSerialJob => JobMoveRemaining(p, m);
    }
  }

  function SpuriousIn(moves: seq<Move>): nat {
    if moves == [] then 0 else (if IsSpurious(moves[0]) then 1 else 0) + SpuriousIn(moves[1..])
  }

  /** A run is no longer than its initial work and its spurious wakeups allow. */
  lemma {:induction false} RunsAreFinite(p: Program, moves: seq<Move>, p': Program)
    requires Ordered(p) && Leads(p, moves, p')
    ensures |moves| <= Remaining(p) + 25 * SpuriousIn(moves)
    decreases |moves|
  {
    if moves == [] {
      RemainingNonNegative(p);
    } else {
      var next := Moved(p, moves[0]);
      assert Ordered(next) by {
        OrderedKept(p, moves[0]);
      }
      MoveRemaining(p, moves[0]);
      RunsAreFinite(next, moves[1..], p');
    }
  }

  /**
   Every run of the program is finite up to spurious wakeups, and a run that cannot be continued
   without one has returned from start().
   */
  lemma {:induction false} StartAlwaysReturns(cap: nat, fileWorkers: set<Tid>, script: seq<Emission>,
    moves: seq<Move>, p: Program)
    requires InitiallySane(fileWorkers, script) && Leads(Start(cap, fileWorkers, script), moves, p)
    ensures |moves| <= Remaining(Start(cap, fileWorkers, script)) + 25 * SpuriousIn(moves)
    ensures p.phase == Returned || exists m :: CanMove(p, m) && !IsSpurious(m)
  {
    var start := Start(cap, fileWorkers, script);
    assert Ordered(start) by {
      StartOrdered(cap, fileWorkers, script);
    }
    RunsAreFinite(start, moves, p);
    assert Base(p) by {
      ReachableOrdered(start, moves, p);
    }
    if p.phase != Returned {
      var m := NeverStuck(p);
    }
  }
}
