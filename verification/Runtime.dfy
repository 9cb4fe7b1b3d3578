/**
 The program around the event loop (src/tgloggerd/TgLoggerd.cpp): the loop thread posts the jobs
 of a script to serial_ and files_, a file worker may post one link job to serial_ while it runs a
 file job, and on a stop request the loop thread shuts down files_ and then serial_.

 Both pools run the step system of module ThreadPool; a move of the program is a step of one pool
 or a move of the code outside the pools.
 */
module Runtime {
  import opened Common
  import opened Counting
  import opened Models
  import opened ThreadPool

  const LOOP: Tid := 0
  const SERIAL_WORKER: Tid := 1

  datatype Phase = Listening | DrainingFiles | DrainingSerial | Returned

  datatype Program = Program(
    files: Pool<FileJob>,
    serial: Pool<SerialJob>,
    script: seq<Emission>,     // what the handlers on the loop thread emit
    pos: nat,                  // how much of it the loop thread has started to post
    phase: Phase,              // where TgLoggerd::start is
    posted: set<nat>           // tickets of the file jobs whose link post was started
  )

  datatype Move =
    | FilesStep(f: Step<FileJob>)
    | SerialStep(s: Step<SerialJob>)
    | LoopPost                 // the loop thread starts posting the next job of the script
    | LoopStop                 // the loop ends; files_->shutdown() is called
    | LoopNext                 // files_->shutdown() has returned; serial_->shutdown() is called
    | LoopReturn               // serial_->shutdown() has returned
    | PostLink(w: Tid)         // the file job on w succeeded and starts posting its link job
    | EndFileJob(w: Tid)       // the file job on w returns, with or without having posted
    | EndSerialJob

  function Start(cap: nat, fileWorkers: set<Tid>, script: seq<Emission>): Program {
    Program(Init(cap, fileWorkers, {LOOP}), Init(cap, {SERIAL_WORKER}, {LOOP} + fileWorkers),
            script, 0, Listening, {})
  }

  ghost predicate SaneThreads(fileWorkers: set<Tid>) {
    LOOP !in fileWorkers && SERIAL_WORKER !in fileWorkers && fileWorkers != {}
  }

  function LinkOf(p: Program, k: nat): SerialJob
    requires k < |p.files.accepted|
  {
    LinkFile(p.files.accepted[k].row, k)
  }

  ghost predicate LoopOutside(p: Program) {
    && LOOP in p.files.pc && p.files.pc[LOOP].Out?
    && LOOP in p.serial.pc && p.serial.pc[LOOP].Out?
  }

  ghost predicate CanMove(p: Program, m: Move) {
    match m
    case FilesStep(s) => Enabled(p.files, s) && (Internal(s) || s.Spurious?)
    case SerialStep(s) => Enabled(p.serial, s) && (Internal(s) || s.Spurious?)
    case LoopPost => p.phase == Listening && LoopOutside(p) && p.pos < |p.script|
    case LoopStop => p.phase == Listening && LoopOutside(p)
    case LoopNext => p.phase == DrainingFiles && LoopOutside(p)
    case LoopReturn => p.phase == DrainingSerial && LoopOutside(p)
    case PostLink(w) =>
      && w in p.files.pc && p.files.pc[w].WorkRun? && p.files.pc[w].ticket !in p.posted
      && p.files.pc[w].ticket < |p.files.accepted|
      && w in p.serial.pc && p.serial.pc[w].Out?
    case EndFileJob(w) => w in p.files.pc && p.files.pc[w].WorkRun? && w in p.serial.pc && p.serial.pc[w].Out?
    case EndSerialJob => SERIAL_WORKER in p.serial.pc && p.serial.pc[SERIAL_WORKER].WorkRun?
  }

  /** The step of files_ that the move consists of, if any. */
  function FilesCall(p: Program, m: Move): Option<Step<FileJob>>
    requires m.LoopPost? ==> p.pos < |p.script|
  {
    match m
    case FilesStep(s) => Some(s)
    case LoopPost => if p.script[p.pos].ToFiles? then Some(Enter(LOOP, p.script[p.pos].file)) else None
    case LoopStop => Some(CallShutdown(LOOP))
    case EndFileJob(w) => Some(Finish(w))
    case _ => None
  }

  /** The step of serial_ that the move consists of, if any. */
  function SerialCall(p: Program, m: Move): Option<Step<SerialJob>>
    requires m.LoopPost? ==> p.pos < |p.script|
    requires m.PostLink?
      ==> m.w in p.files.pc && p.files.pc[m.w].WorkRun? && p.files.pc[m.w].ticket < |p.files.accepted|
  {
    match m
    case SerialStep(s) => Some(s)
    case LoopPost => if p.script[p.pos].ToSerial? then Some(Enter(LOOP, p.script[p.pos].job)) else None
    case LoopNext => Some(CallShutdown(LOOP))
    case PostLink(w) => Some(Enter(w, LinkOf(p, p.files.pc[w].ticket)))
    case EndSerialJob => Some(Finish(SERIAL_WORKER))
    case _ => None
  }

  function Stepped<J>(pool: Pool<J>, call: Option<Step<J>>): Pool<J>
    requires call.Some? ==> Enabled(pool, call.value)
  {
    if call.Some? then Apply(pool, call.value) else pool
  }

  function Moved(p: Program, m: Move): Program
    requires CanMove(p, m)
  {
    Program(
      Stepped(p.files, FilesCall(p, m)),
      Stepped(p.serial, SerialCall(p, m)),
      p.script,
      if m.LoopPost? then p.pos + 1 else p.pos,
      (match m
       case LoopStop => DrainingFiles
       case LoopNext => DrainingSerial
       case LoopReturn => Returned
       case _ => p.phase),
      if m.PostLink? then p.posted + {p.files.pc[m.w].ticket} else p.posted)
  }

  // ---------------------------------------------------------------- invariants

  /** Who uses which pool, and how far shutdown has come. */
  ghost predicate Wired(p: Program) {
    && LOOP !in p.files.workers && SERIAL_WORKER !in p.files.workers && p.files.workers != {}
    && p.files.pc.Keys == p.files.workers + {LOOP}
    && p.serial.workers == {SERIAL_WORKER}
    && p.serial.pc.Keys == p.files.workers + {LOOP, SERIAL_WORKER}
  }

  ghost predicate FilesGone(p: Program)
    requires Wired(p)
  {
    p.files.draining && (forall w <- p.files.workers :: p.files.pc[w].WorkDone?) && p.files.pc[LOOP].Out?
  }

  ghost predicate Phased(p: Program)
    requires Wired(p)
  {
    var fl, sl := p.files.pc[LOOP], p.serial.pc[LOOP];
    match p.phase
    case Listening =>
      !p.files.draining && !p.serial.draining && ((fl.Out? && (sl.Out? || sl.Post())) || (fl.Post() && sl.Out?))
    case DrainingFiles =>
      !p.serial.draining && sl.Out? && !fl.Post() && (fl.Out? ==> FilesGone(p))
    case DrainingSerial =>
      FilesGone(p) && !sl.Post() && (sl.Out? ==> p.serial.draining && p.serial.pc[SERIAL_WORKER].WorkDone?)
    case Returned =>
      FilesGone(p) && sl.Out? && p.serial.draining && p.serial.pc[SERIAL_WORKER].WorkDone?
  }

  /** A file worker is inside serial_ only while it posts the link of the job it runs. */
  ghost predicate Linking(p: Program)
    requires Wired(p)
  {
    && p.files.dropped == [] && p.serial.dropped == []
    && (forall k <- p.posted :: k < p.files.taken && k < |p.files.accepted|)
    && (forall w <- p.files.workers ::
          && (p.serial.pc[w].Out? || p.serial.pc[w].Post())
          && (p.files.pc[w].WorkNotify? ==> p.files.pc[w].ticket !in p.posted)
          && (p.serial.pc[w].Post() ==>
                && p.files.pc[w].WorkRun? && p.files.pc[w].ticket in p.posted
                && p.files.pc[w].ticket < |p.files.accepted|
                && p.serial.pc[w].job == LinkOf(p, p.files.pc[w].ticket)))
  }

  ghost predicate Base(p: Program) {
    Inv(p.files) && Inv(p.serial) && Wired(p) && Phased(p) && Linking(p) && InOrder(p.serial, SERIAL_WORKER)
  }

  lemma {:induction false} StartBase(cap: nat, fileWorkers: set<Tid>, script: seq<Emission>)
    requires SaneThreads(fileWorkers)
    ensures Base(Start(cap, fileWorkers, script))
  {
    InitInv<FileJob>(cap, fileWorkers, {LOOP});
    InitInv<SerialJob>(cap, {SERIAL_WORKER}, {LOOP} + fileWorkers);
    StartWired(cap, fileWorkers, script);
    StartLinking(cap, fileWorkers, script);
  }

  lemma StartWired(cap: nat, fileWorkers: set<Tid>, script: seq<Emission>)
    requires SaneThreads(fileWorkers)
    ensures Wired(Start(cap, fileWorkers, script)) && Phased(Start(cap, fileWorkers, script))
  {
  }

  lemma StartLinking(cap: nat, fileWorkers: set<Tid>, script: seq<Emission>)
    requires SaneThreads(fileWorkers)
    ensures var p := Start(cap, fileWorkers, script); Wired(p) && Linking(p) && InOrder(p.serial, SERIAL_WORKER)
  {
  }

  lemma {:induction false} PoolKept<J>(pool: Pool<J>, call: Option<Step<J>>)
    requires Inv(pool) && (call.Some? ==> Enabled(pool, call.value))
    ensures Inv(Stepped(pool, call))
    ensures Stepped(pool, call).pc.Keys == pool.pc.Keys && Stepped(pool, call).workers == pool.workers
  {
    if call.Some? {
      StepKeepsInv(pool, call.value);
      Frame(pool, call.value);
    }
  }

  lemma {:induction false} PoolsKept(p: Program, m: Move)
    requires Inv(p.files) && Inv(p.serial) && InOrder(p.serial, SERIAL_WORKER) && CanMove(p, m)
    ensures Inv(Moved(p, m).files) && Inv(Moved(p, m).serial) && InOrder(Moved(p, m).serial, SERIAL_WORKER)
    ensures Moved(p, m).files.pc.Keys == p.files.pc.Keys && Moved(p, m).files.workers == p.files.workers
    ensures Moved(p, m).serial.pc.Keys == p.serial.pc.Keys && Moved(p, m).serial.workers == p.serial.workers
  {
    PoolKept(p.files, FilesCall(p, m));
    PoolKept(p.serial, SerialCall(p, m));
    SerialInOrder(p.serial, SerialCall(p, m));
  }

  lemma {:induction false} SerialInOrder(pool: Pool<SerialJob>, call: Option<Step<SerialJob>>)
    requires Inv(pool) && InOrder(pool, SERIAL_WORKER) && (call.Some? ==> Enabled(pool, call.value))
    ensures InOrder(Stepped(pool, call), SERIAL_WORKER)
  {
    if call.Some? {
      InOrderKept(pool, call.value, SERIAL_WORKER);
    }
  }

  lemma FilesFlowPhased(p: Program, f': Pool<FileJob>, t: Tid)
    requires Wired(p) && Phased(p) && Roles(p.files) && Flow(p.files, f', t)
    ensures Wired(p.(files := f')) && Phased(p.(files := f'))
  {
    assert t in p.files.workers || t == LOOP;
  }

  /** The loop posts to files_ only while it is not draining, so nothing is dropped. */
  lemma FilesFlowDropped(p: Program, f': Pool<FileJob>, t: Tid)
    requires Wired(p) && Phased(p) && Roles(p.files) && Flow(p.files, f', t) && p.files.dropped == []
    ensures f'.dropped == [] && p.files.accepted <= f'.accepted && p.files.taken <= f'.taken
  {
    assert t in p.files.workers || t == LOOP;
  }

  /** A worker that takes a file job takes a fresh ticket; one that posts a link is not moved by the pool. */
  lemma FilesFlowWorker(p: Program, f': Pool<FileJob>, t: Tid, w: Tid)
    requires Wired(p) && Linking(p) && Roles(p.files) && Queued(p.files) && Flow(p.files, f', t) && w in p.files.workers
    ensures f'.pc[w].WorkNotify? ==> f'.pc[w].ticket !in p.posted
    ensures p.serial.pc[w].Post() ==> f'.pc[w] == p.files.pc[w]
  {
  }

  lemma FilesFlowLinking(p: Program, f': Pool<FileJob>, t: Tid)
    requires Wired(p) && Phased(p) && Linking(p) && Roles(p.files) && Queued(p.files) && Flow(p.files, f', t)
    ensures Wired(p.(files := f')) && Linking(p.(files := f'))
  {
    FilesFlowDropped(p, f', t);
    forall w | w in p.files.workers
      ensures f'.pc[w].WorkNotify? ==> f'.pc[w].ticket !in p.posted
      ensures p.serial.pc[w].Post() ==> f'.pc[w] == p.files.pc[w]
    {
      FilesFlowWorker(p, f', t, w);
    }
  }

  lemma SerialFlowPhased(p: Program, s': Pool<SerialJob>, t: Tid)
    requires Wired(p) && Phased(p) && Linking(p) && Roles(p.serial) && Flow(p.serial, s', t)
    ensures Wired(p.(serial := s')) && Phased(p.(serial := s'))
  {
    assert t in p.files.workers || t == LOOP || t == SERIAL_WORKER;
  }

  lemma SerialFlowLinking(p: Program, s': Pool<SerialJob>, t: Tid)
    requires Wired(p) && Phased(p) && Linking(p) && Roles(p.serial) && Flow(p.serial, s', t)
    ensures Wired(p.(serial := s')) && Linking(p.(serial := s'))
  {
    assert s'.dropped == [] by {
      assert t in p.files.workers || t == LOOP || t == SERIAL_WORKER;
    }
  }

  lemma {:induction false} BaseKept(p: Program, m: Move)
    requires Base(p) && CanMove(p, m)
    ensures Base(Moved(p, m))
  {
    PoolsKept(p, m);
    match m {
      case FilesStep(s) => FilesStepWiring(p, s);
      case SerialStep(s) => SerialStepWiring(p, s);
      case PostLink(w) =>
        OutsidePhased(p, m);
        PostLinkLinking(p, w);
      case _ =>
        OutsidePhased(p, m);
        OutsideLinking(p, m);
    }
  }

  lemma FilesStepWiring(p: Program, s: Step<FileJob>)
    requires Base(p) && CanMove(p, FilesStep(s))
    ensures var p' := Moved(p, FilesStep(s)); Wired(p') && Phased(p') && Linking(p')
  {
    StepIsFlow(p.files, s);
    FilesFlowPhased(p, Apply(p.files, s), s.t);
    FilesFlowLinking(p, Apply(p.files, s), s.t);
  }

  lemma SerialStepWiring(p: Program, s: Step<SerialJob>)
    requires Base(p) && CanMove(p, SerialStep(s))
    ensures var p' := Moved(p, SerialStep(s)); Wired(p') && Phased(p') && Linking(p')
  {
    StepIsFlow(p.serial, s);
    SerialFlowPhased(p, Apply(p.serial, s), s.t);
    SerialFlowLinking(p, Apply(p.serial, s), s.t);
  }

  /** The moves of the code outside the pools. */
  lemma OutsidePhased(p: Program, m: Move)
    requires Wired(p) && Phased(p) && Roles(p.files) && Roles(p.serial)
    requires CanMove(p, m) && !m.FilesStep? && !m.SerialStep? && Wired(Moved(p, m))
    ensures Phased(Moved(p, m))
  {
  }

  lemma OutsideLinking(p: Program, m: Move)
    requires Wired(p) && Linking(p) && Roles(p.files)
    requires CanMove(p, m) && !m.FilesStep? && !m.SerialStep? && !m.PostLink? && Wired(Moved(p, m))
    ensures Linking(Moved(p, m))
  {
  }

  /** p' is p after the worker w, running the file job k, entered post() with its link. */
  ghost predicate LinkEntered(p: Program, p': Program, w: Tid, k: nat) {
    && p'.files == p.files && p'.posted == p.posted + {k} && p'.serial.dropped == p.serial.dropped
    && k < |p.files.accepted| && w in p.serial.pc && p'.serial.pc.Keys == p.serial.pc.Keys
    && p'.serial.pc[w] == PostLock(LinkOf(p, k), false)
    && forall u <- p.serial.pc :: u != w ==> p'.serial.pc[u] == p.serial.pc[u]
  }

  lemma PostLinkEnters(p: Program, w: Tid)
    requires CanMove(p, PostLink(w))
    ensures LinkEntered(p, Moved(p, PostLink(w)), w, p.files.pc[w].ticket)
  {
  }

  lemma LinkEnteredLinking(p: Program, p': Program, w: Tid, k: nat)
    requires Wired(p) && Linking(p) && Wired(p') && LinkEntered(p, p', w, k)
    requires w in p.files.workers && p.files.pc[w] == WorkRun(k) && k < p.files.taken
    requires forall u <- p.files.workers :: u != w ==> p.files.pc[u].Carried() != Some(k)
    ensures Linking(p')
  {
  }

  lemma PostLinkLinking(p: Program, w: Tid)
    requires Wired(p) && Linking(p) && Roles(p.files)
    requires Tickets(p.files.pc, p.files.taken, p.files.finished)
    requires CanMove(p, PostLink(w)) && Wired(Moved(p, PostLink(w)))
    ensures Linking(Moved(p, PostLink(w)))
  {
    var k := p.files.pc[w].ticket;
    assert p.files.pc[w].Carried() == Some(k);
    PostLinkEnters(p, w);
    LinkEnteredLinking(p, Moved(p, PostLink(w)), w, k);
  }
}
