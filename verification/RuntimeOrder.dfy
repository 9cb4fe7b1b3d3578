/**
 What reaches the two pools, in which order, and that the two-stage drain loses none of it.
 */
module RuntimeOrder {
  import opened Common
  import opened Counting
  import opened Models
  import opened ThreadPool
  import opened Runtime

  function SerialOf(script: seq<Emission>): seq<SerialJob> {
    if script == [] then []
    else
      var e := script[|script| - 1];
      SerialOf(script[..|script| - 1]) + if e.ToSerial? then [e.job] else []
  }

  function FilesOf(script: seq<Emission>): seq<FileJob> {
    if script == [] then []
    else
      var e := script[|script| - 1];
      FilesOf(script[..|script| - 1]) + if e.ToFiles? then [e.file] else []
  }

  /** The jobs in serial_ that came from the event loop. */
  function NonLinks(jobs: seq<SerialJob>): seq<SerialJob> {
    if jobs == [] then []
    else
      var j := jobs[|jobs| - 1];
      NonLinks(jobs[..|jobs| - 1]) + if j.LinkFile? then [] else [j]
  }

  lemma NonLinksSnoc(jobs: seq<SerialJob>, j: SerialJob)
    ensures NonLinks(jobs + [j]) == NonLinks(jobs) + if j.LinkFile? then [] else [j]
  {
    assert (jobs + [j])[..|jobs|] == jobs;
  }

  lemma {:induction false} NonLinksMember(jobs: seq<SerialJob>, j: SerialJob)
    requires j in NonLinks(jobs)
    ensures j in jobs
  {
    if jobs != [] && jobs[|jobs| - 1] != j {
      NonLinksMember(jobs[..|jobs| - 1], j);
    }
  }

  lemma {:induction false} SerialOfMember(script: seq<Emission>, j: SerialJob)
    requires ToSerial(j) in script
    ensures j in SerialOf(script)
  {
    if script[|script| - 1] != ToSerial(j) {
      SerialOfMember(script[..|script| - 1], j);
    }
  }

  // ---------------------------------------------------------------- invariants

  ghost predicate LoopPosting(p: Program)
    requires Wired(p)
  {
    p.files.pc[LOOP].Post() || p.serial.pc[LOOP].Post()
  }

  /** How much of the script the pools have accepted. */
  ghost function Done(p: Program): int
    requires Wired(p)
  {
    if LoopPosting(p) then p.pos - 1 else p.pos
  }

  /** The pools hold exactly what the loop finished posting, in the order of the script. */
  ghost predicate Delivered(p: Program)
    requires Wired(p)
  {
    && p.pos <= |p.script| && 0 <= Done(p)
    && (p.files.pc[LOOP].Post() ==> p.script[p.pos - 1] == ToFiles(p.files.pc[LOOP].job))
    && (p.serial.pc[LOOP].Post() ==> p.script[p.pos - 1] == ToSerial(p.serial.pc[LOOP].job))
    && p.files.accepted == FilesOf(p.script[..Done(p)])
    && NonLinks(p.serial.accepted) == SerialOf(p.script[..Done(p)])
  }

  /** Accepted links belong to started link posts, and no link is accepted twice. */
  ghost predicate LinksOnce(p: Program)
    requires Wired(p) && Linking(p)
  {
    && (forall j <- p.serial.accepted :: j.LinkFile? ==> j.ticket in p.posted && j == LinkOf(p, j.ticket))
    && LinksUnique(p.serial.accepted)
  }

  /** A started link post is accepted once its poster has left serial_ again. */
  ghost predicate LinksArrive(p: Program)
    requires Wired(p) && Linking(p)
  {
    && (forall k <- p.posted :: k in p.files.finished ==> LinkOf(p, k) in p.serial.accepted)
    && (forall w <- p.files.workers :: p.files.pc[w].WorkRun? && p.files.pc[w].ticket in p.posted ==>
          (p.serial.pc[w].Out? <==> LinkOf(p, p.files.pc[w].ticket) in p.serial.accepted))
  }

  ghost predicate Linked(p: Program)
    requires Wired(p) && Linking(p)
  {
    LinksOnce(p) && LinksArrive(p)
  }

  /** A file job's row was saved before the file job was accepted, and before its link. */
  ghost predicate RowsFirst(p: Program) {
    && (forall f <- p.files.accepted :: Save(f.row) in p.serial.accepted)
    && (forall i :: 0 <= i < |p.serial.accepted| && p.serial.accepted[i].LinkFile?
          ==> Save(p.serial.accepted[i].row) in p.serial.accepted[..i])
  }

  ghost predicate Ordered(p: Program) {
    && FromLoop(p.script) && WellOrdered(p.script)
    && Base(p) && Delivered(p) && Linked(p) && RowsFirst(p)
  }

  lemma StartOrdered(cap: nat, fileWorkers: set<Tid>, script: seq<Emission>)
    requires SaneThreads(fileWorkers)
    requires FromLoop(script) && WellOrdered(script)
    ensures Ordered(Start(cap, fileWorkers, script))
  {
    StartBase(cap, fileWorkers, script);
  }

  // ---------------------------------------------------------------- steps inside the pools

  lemma FilesFlowDelivered(p: Program, f': Pool<FileJob>, t: Tid)
    requires Wired(p) && Phased(p) && Delivered(p) && Roles(p.files) && Flow(p.files, f', t)
    requires Wired(p.(files := f'))
    ensures Delivered(p.(files := f'))
    ensures f'.accepted == p.files.accepted
      || (t == LOOP && p.files.pc[LOOP].Post() && f'.accepted == p.files.accepted + [p.files.pc[LOOP].job])
  {
    assert t in p.files.workers || t == LOOP;
    if f'.accepted != p.files.accepted {
      assert p.script[..p.pos][..p.pos - 1] == p.script[..p.pos - 1];
    }
  }

  lemma {:induction false} FilesFlowOrdered(p: Program, f': Pool<FileJob>, t: Tid)
    requires Ordered(p) && Flow(p.files, f', t) && Base(p.(files := f'))
    ensures Ordered(p.(files := f'))
  {
    FilesFlowDelivered(p, f', t);
    FilesFlowRowsFirst(p, f', t);
    FilesFlowLinked(p, f', t);
  }

  lemma FilesFlowRowsFirst(p: Program, f': Pool<FileJob>, t: Tid)
    requires WellOrdered(p.script) && Wired(p) && Phased(p) && Delivered(p) && RowsFirst(p)
    requires Roles(p.files) && Flow(p.files, f', t) && Wired(p.(files := f'))
    ensures RowsFirst(p.(files := f'))
  {
    FilesFlowDelivered(p, f', t);
    if f'.accepted != p.files.accepted {
      var row := p.files.pc[LOOP].job.row;
      assert Grounded(p.script[p.pos - 1], p.script[..p.pos - 1]);
      SerialOfMember(p.script[..p.pos - 1], Save(row));
      NonLinksMember(p.serial.accepted, Save(row));
    }
  }

  lemma FilesFlowLinked(p: Program, f': Pool<FileJob>, t: Tid)
    requires Wired(p) && Linking(p) && Linked(p) && Roles(p.files) && Flow(p.files, f', t)
    requires Wired(p.(files := f')) && Linking(p.(files := f')) && p.files.accepted <= f'.accepted
    ensures Linked(p.(files := f'))
  {
    var p' := p.(files := f');
    assert forall k <- p.posted :: LinkOf(p', k) == LinkOf(p, k);
    assert f'.finished == p.files.finished;
    forall w | w in p.files.workers && f'.pc[w].WorkRun? && f'.pc[w].ticket in p.posted
      ensures p.files.pc[w] == f'.pc[w]
    {
    }
  }

  /** Who accepts what: the loop its own job, a file worker the link of the job it runs. */
  lemma SerialFlowAccepts(p: Program, s': Pool<SerialJob>, t: Tid)
    requires FromLoop(p.script) && Wired(p) && Phased(p) && Linking(p) && Delivered(p)
    requires Roles(p.serial) && Flow(p.serial, s', t) && s'.accepted != p.serial.accepted
    ensures p.serial.pc[t].Post() && s'.pc[t].Out? && s'.accepted == p.serial.accepted + [p.serial.pc[t].job]
    ensures t == LOOP || t in p.files.workers
    ensures p.serial.pc[t].job.LinkFile? <==> t in p.files.workers
    ensures t in p.files.workers ==>
      var w := p.files.pc[t];
      && w.WorkRun? && w.ticket < |p.files.accepted|
      && p.serial.pc[t].job == LinkFile(p.files.accepted[w.ticket].row, w.ticket)
  {
    assert t in p.files.workers || t == LOOP || t == SERIAL_WORKER;
    if t == LOOP {
      assert ToSerial(p.serial.pc[t].job) in p.script;
    }
  }

  /** The loop's own post is over exactly when its job has been accepted. */
  lemma SerialFlowLoop(p: Program, s': Pool<SerialJob>, t: Tid)
    requires FromLoop(p.script) && Wired(p) && Phased(p) && Linking(p) && Delivered(p)
    requires Roles(p.serial) && Flow(p.serial, s', t)
    ensures t == LOOP && s'.accepted != p.serial.accepted ==> p.serial.pc[LOOP].Post() && s'.pc[LOOP].Out?
    ensures !(t == LOOP && s'.accepted != p.serial.accepted) ==> s'.pc[LOOP].Post() == p.serial.pc[LOOP].Post()
    ensures s'.pc[LOOP].Post() ==> p.serial.pc[LOOP].Post() && s'.pc[LOOP].job == p.serial.pc[LOOP].job
  {
  }

  lemma SerialFlowDelivered(p: Program, s': Pool<SerialJob>, t: Tid)
    requires FromLoop(p.script) && Wired(p) && Phased(p) && Linking(p) && Delivered(p)
    requires Roles(p.serial) && Flow(p.serial, s', t) && Wired(p.(serial := s'))
    ensures Delivered(p.(serial := s'))
  {
    var p' := p.(serial := s');
    SerialFlowLoop(p, s', t);
    if s'.accepted == p.serial.accepted {
      assert Done(p') == Done(p);
    } else {
      SerialFlowAccepts(p, s', t);
      NonLinksSnoc(p.serial.accepted, p.serial.pc[t].job);
      if t == LOOP {
        assert Done(p') == p.pos == Done(p) + 1;
        assert p.script[..p.pos][..p.pos - 1] == p.script[..p.pos - 1];
        assert SerialOf(p.script[..p.pos]) == SerialOf(p.script[..p.pos - 1]) + [p.serial.pc[t].job];
      } else {
        assert Done(p') == Done(p);
      }
    }
  }

  /** Two workers never carry the same ticket. */
  lemma OtherTickets(p: Program, t: Tid)
    requires Wired(p) && Tickets(p.files.pc, p.files.taken, p.files.finished)
    requires t in p.files.workers && p.files.pc[t].WorkRun?
    ensures forall w <- p.files.workers ::
      w != t && p.files.pc[w].WorkRun? ==> p.files.pc[w].ticket != p.files.pc[t].ticket
    ensures p.files.pc[t].ticket !in p.files.finished
  {
    forall w | w in p.files.workers && w != t && p.files.pc[w].WorkRun?
      ensures p.files.pc[w].ticket != p.files.pc[t].ticket
    {
      assert p.files.pc[w].Carried() != p.files.pc[t].Carried();
    }
    assert p.files.pc[t].Carried() == Some(p.files.pc[t].ticket);
  }

  /** serial_ goes on to s' by accepting one more job from t. */
  ghost predicate Accepts(p: Program, s': Pool<SerialJob>, t: Tid, job: SerialJob)
    requires Wired(p) && Linking(p) && Wired(p.(serial := s'))
  {
    && s'.accepted == p.serial.accepted + [job] && t in p.serial.pc && s'.pc[t].Out?
    && (forall w <- p.files.workers :: w != t ==> s'.pc[w].Out? == p.serial.pc[w].Out?)
    && (if t in p.files.workers then p.serial.pc[t].Post() && job == p.serial.pc[t].job else !job.LinkFile?)
  }

  lemma AcceptKeepsOnce(p: Program, s': Pool<SerialJob>, t: Tid, job: SerialJob)
    requires Wired(p) && Linking(p) && Linked(p) && Wired(p.(serial := s')) && Linking(p.(serial := s'))
    requires Accepts(p, s', t, job)
    ensures LinksOnce(p.(serial := s'))
  {
    if t in p.files.workers {
      assert job == LinkOf(p, p.files.pc[t].ticket) && job !in p.serial.accepted;
    }
  }

  lemma AcceptKeepsArrive(p: Program, s': Pool<SerialJob>, t: Tid, job: SerialJob)
    requires Wired(p) && Linking(p) && Linked(p) && Tickets(p.files.pc, p.files.taken, p.files.finished)
    requires Wired(p.(serial := s')) && Linking(p.(serial := s')) && Accepts(p, s', t, job)
    ensures LinksArrive(p.(serial := s'))
  {
    var p' := p.(serial := s');
    if t in p.files.workers {
      OtherTickets(p, t);
      assert job == LinkOf(p, p.files.pc[t].ticket);
    }
    forall w | w in p.files.workers && p.files.pc[w].WorkRun? && p.files.pc[w].ticket in p.posted
      ensures p'.serial.pc[w].Out? <==> LinkOf(p', p.files.pc[w].ticket) in s'.accepted
    {
      assert w != t ==> LinkOf(p', p.files.pc[w].ticket) != job;
    }
  }

  lemma {:induction false} SerialFlowLinked(p: Program, s': Pool<SerialJob>, t: Tid)
    requires FromLoop(p.script) && Tickets(p.files.pc, p.files.taken, p.files.finished)
    requires Wired(p) && Phased(p) && Linking(p) && Linked(p) && Delivered(p)
    requires Roles(p.serial) && Flow(p.serial, s', t)
    requires Wired(p.(serial := s')) && Linking(p.(serial := s'))
    ensures Linked(p.(serial := s'))
  {
    assert forall w <- p.files.workers :: w != t ==> s'.pc[w].Out? == p.serial.pc[w].Out?;
    if s'.accepted != p.serial.accepted {
      SerialFlowAccepts(p, s', t);
      AcceptKeepsOnce(p, s', t, p.serial.pc[t].job);
      AcceptKeepsArrive(p, s', t, p.serial.pc[t].job);
    } else {
      SerialFlowSteady(p, s', t);
      SameOutLinked(p, s');
    }
  }

  /** A file worker leaves serial_ only when its link is accepted. */
  lemma SerialFlowSteady(p: Program, s': Pool<SerialJob>, t: Tid)
    requires Wired(p) && Phased(p) && Linking(p)
    requires Roles(p.serial) && Flow(p.serial, s', t) && s'.accepted == p.serial.accepted
    ensures forall w <- p.files.workers :: s'.pc[w].Out? == p.serial.pc[w].Out?
  {
  }

  lemma SameOutLinked(p: Program, s': Pool<SerialJob>)
    requires Wired(p) && Linking(p) && Linked(p) && Wired(p.(serial := s')) && Linking(p.(serial := s'))
    requires s'.accepted == p.serial.accepted && forall w <- p.files.workers :: s'.pc[w].Out? == p.serial.pc[w].Out?
    ensures Linked(p.(serial := s'))
  {
  }

  lemma {:induction false} SerialFlowOrdered(p: Program, s': Pool<SerialJob>, t: Tid)
    requires Ordered(p) && Flow(p.serial, s', t) && Base(p.(serial := s'))
    ensures Ordered(p.(serial := s'))
  {
    SerialFlowDelivered(p, s', t);
    SerialFlowLinked(p, s', t);
    SerialFlowRowsFirst(p, s', t);
  }

  lemma SerialFlowRowsFirst(p: Program, s': Pool<SerialJob>, t: Tid)
    requires FromLoop(p.script) && Wired(p) && Phased(p) && Linking(p) && Delivered(p) && RowsFirst(p)
    requires Roles(p.serial) && Flow(p.serial, s', t)
    ensures RowsFirst(p.(serial := s'))
  {
    if s'.accepted != p.serial.accepted {
      SerialFlowAccepts(p, s', t);
      assert forall i :: 0 <= i <= |p.serial.accepted| ==> s'.accepted[..i] == p.serial.accepted[..i];
    }
  }

  // ---------------------------------------------------------------- moves outside the pools

  /** What a call from outside does to the pools: nothing is accepted or taken. */
  lemma OutsideLedgers(p: Program, m: Move)
    requires CanMove(p, m) && !m.FilesStep? && !m.SerialStep?
    ensures Moved(p, m).files.accepted == p.files.accepted && Moved(p, m).serial.accepted == p.serial.accepted
    ensures Moved(p, m).script == p.script
    ensures m.EndFileJob? || Moved(p, m).files.finished == p.files.finished
  {
  }

  lemma LoopPostDelivered(p: Program)
    requires Wired(p) && Delivered(p) && CanMove(p, LoopPost) && Wired(Moved(p, LoopPost))
    ensures Delivered(Moved(p, LoopPost))
  {
    assert Done(Moved(p, LoopPost)) == p.pos == Done(p);
  }

  lemma OutsideDelivered(p: Program, m: Move)
    requires Wired(p) && Phased(p) && Roles(p.files) && Delivered(p)
    requires CanMove(p, m) && !m.FilesStep? && !m.SerialStep? && Wired(Moved(p, m))
    ensures Delivered(Moved(p, m))
  {
    if m.LoopPost? {
      LoopPostDelivered(p);
    } else {
      OutsideLedgers(p, m);
      OutsidePosts(p, m);
    }
  }

  /** Only LoopPost lets the loop enter a post. */
  lemma OutsidePosts(p: Program, m: Move)
    requires Wired(p) && Roles(p.files) && CanMove(p, m) && Wired(Moved(p, m))
    requires !m.FilesStep? && !m.SerialStep? && !m.LoopPost?
    ensures Moved(p, m).pos == p.pos
    ensures Moved(p, m).files.pc[LOOP].Post() ==> Moved(p, m).files.pc[LOOP] == p.files.pc[LOOP]
    ensures Moved(p, m).serial.pc[LOOP].Post() ==> Moved(p, m).serial.pc[LOOP] == p.serial.pc[LOOP]
    ensures LoopPosting(Moved(p, m)) == LoopPosting(p)
  {
  }

  lemma PostLinkLinked(p: Program, w: Tid)
    requires Wired(p) && Linking(p) && Linked(p) && Roles(p.files) && CanMove(p, PostLink(w))
    requires Tickets(p.files.pc, p.files.taken, p.files.finished)
    requires Wired(Moved(p, PostLink(w))) && Linking(Moved(p, PostLink(w)))
    ensures Linked(Moved(p, PostLink(w)))
  {
    OutsideLedgers(p, PostLink(w));
    OtherTickets(p, w);
    PostLinkEnters(p, w);
    LinkEnteredLinked(p, Moved(p, PostLink(w)), w, p.files.pc[w].ticket);
  }

  lemma LinkEnteredLinked(p: Program, p': Program, w: Tid, k: nat)
    requires Wired(p) && Linking(p) && Linked(p) && Wired(p') && Linking(p') && LinkEntered(p, p', w, k)
    requires p'.serial.accepted == p.serial.accepted && w in p.files.workers && k !in p.posted && k !in p.files.finished
    requires p.files.pc[w] == WorkRun(k)
    requires forall u <- p.files.workers :: u != w && p.files.pc[u].WorkRun? ==> p.files.pc[u].ticket != k
    ensures Linked(p')
  {
    assert LinkOf(p, k) !in p.serial.accepted;
  }

  lemma EndFileJobLinked(p: Program, w: Tid)
    requires Wired(p) && Linking(p) && Linked(p) && Roles(p.files) && CanMove(p, EndFileJob(w))
    requires Wired(Moved(p, EndFileJob(w))) && Linking(Moved(p, EndFileJob(w)))
    ensures Linked(Moved(p, EndFileJob(w)))
  {
    var p' := Moved(p, EndFileJob(w));
    OutsideLedgers(p, EndFileJob(w));
    assert w in p.files.workers && p'.files.pc[w].WorkLock?;
    assert forall u <- p.files.workers :: u != w ==> p'.files.pc[u] == p.files.pc[u];
  }

  /** The moves that leave the file workers and their link posts alone. */
  lemma LoopMovesWorkers(p: Program, m: Move)
    requires Wired(p) && CanMove(p, m) && Wired(Moved(p, m))
    requires m.LoopPost? || m.LoopStop? || m.LoopNext? || m.LoopReturn? || m.EndSerialJob?
    ensures Moved(p, m).posted == p.posted && Moved(p, m).files.workers == p.files.workers
    ensures forall w <- p.files.workers ::
      Moved(p, m).files.pc[w] == p.files.pc[w] && Moved(p, m).serial.pc[w] == p.serial.pc[w]
  {
  }

  lemma SameLinks(p: Program, p': Program)
    requires Wired(p) && Linking(p) && Linked(p) && Wired(p') && Linking(p')
    requires p'.posted == p.posted && p'.files.workers == p.files.workers
    requires p'.files.accepted == p.files.accepted && p'.files.finished == p.files.finished
    requires p'.serial.accepted == p.serial.accepted
    requires forall w <- p.files.workers :: p'.files.pc[w] == p.files.pc[w] && p'.serial.pc[w] == p.serial.pc[w]
    ensures Linked(p')
  {
  }

  lemma {:induction false} OutsideOrdered(p: Program, m: Move)
    requires Ordered(p) && CanMove(p, m) && Base(Moved(p, m)) && !m.FilesStep? && !m.SerialStep?
    ensures Ordered(Moved(p, m))
  {
    OutsideLedgers(p, m);
    OutsideDelivered(p, m);
    if m.PostLink? {
      PostLinkLinked(p, m.w);
    } else if m.EndFileJob? {
      EndFileJobLinked(p, m.w);
    } else {
      LoopMovesWorkers(p, m);
      SameLinks(p, Moved(p, m));
    }
  }

  lemma {:induction false} FilesStepOrdered(p: Program, s: Step<FileJob>)
    requires Ordered(p) && CanMove(p, FilesStep(s)) && Base(Moved(p, FilesStep(s)))
    ensures Ordered(Moved(p, FilesStep(s)))
  {
    StepIsFlow(p.files, s);
    FilesFlowOrdered(p, Apply(p.files, s), s.t);
  }

  lemma {:induction false} SerialStepOrdered(p: Program, s: Step<SerialJob>)
    requires Ordered(p) && CanMove(p, SerialStep(s)) && Base(Moved(p, SerialStep(s)))
    ensures Ordered(Moved(p, SerialStep(s)))
  {
    StepIsFlow(p.serial, s);
    SerialFlowOrdered(p, Apply(p.serial, s), s.t);
  }

  /** Every move of the program keeps everything above. */
  lemma {:induction false} OrderedKept(p: Program, m: Move)
    requires Ordered(p) && CanMove(p, m)
    ensures Ordered(Moved(p, m))
  {
    BaseKept(p, m);
    if m.FilesStep? {
      FilesStepOrdered(p, m.f);
    } else if m.SerialStep? {
      SerialStepOrdered(p, m.s);
    } else {
      OutsideOrdered(p, m);
    }
  }

  // ---------------------------------------------------------------- whole runs

  /** `moves` lead from p to p'. */
  ghost predicate Leads(p: Program, moves: seq<Move>, p': Program)
    decreases |moves|
  {
    if moves == [] then p' == p
    else CanMove(p, moves[0]) && Leads(Moved(p, moves[0]), moves[1..], p')
  }

  lemma {:induction false} ReachableOrdered(p: Program, moves: seq<Move>, p': Program)
    requires Ordered(p) && Leads(p, moves, p')
    ensures Ordered(p')
    decreases |moves|
  {
    if moves != [] {
      var next := Moved(p, moves[0]);
      assert Ordered(next) by {
        OrderedKept(p, moves[0]);
      }
      ReachableOrdered(next, moves[1..], p');
    }
  }

  ghost predicate InitiallySane(fileWorkers: set<Tid>, script: seq<Emission>) {
    SaneThreads(fileWorkers) && FromLoop(script) && WellOrdered(script)
  }

  /** The jobs a pool has run, in the order in which they ended. */
  ghost function Executed<J>(p: Pool<J>): seq<J>
    requires forall i :: 0 <= i < |p.finished| ==> p.finished[i] < |p.accepted|
  {
    seq(|p.finished|, i requires 0 <= i < |p.finished| => p.accepted[p.finished[i]])
  }

  /** serial_ is a strict FIFO executor: what has ended is a prefix of what was accepted. */
  lemma ExecutedInOrder<J>(p: Pool<J>, w: Tid)
    requires InOrder(p, w) && p.taken <= |p.accepted|
    ensures |p.finished| <= |p.accepted| && forall i :: 0 <= i < |p.finished| ==> p.finished[i] < |p.accepted|
    ensures Executed(p) == p.accepted[..|p.finished|]
  {
  }

  lemma {:induction false} SerialOfPrefix(script: seq<Emission>, m: nat) returns (q: nat)
    requires m < |SerialOf(script)|
    ensures q < |script| && script[q] == ToSerial(SerialOf(script)[m])
    ensures SerialOf(script[..q]) == SerialOf(script)[..m]
  {
    var front := script[..|script| - 1];
    if m < |SerialOf(front)| {
      q := SerialOfPrefix(front, m);
      assert front[..q] == script[..q];
    } else {
      q := |script| - 1;
    }
  }

  lemma {:induction false} NonLinksPrefix(jobs: seq<SerialJob>, i: nat)
    requires i < |jobs| && !jobs[i].LinkFile?
    ensures NonLinks(jobs[..i]) <= NonLinks(jobs)
    ensures |NonLinks(jobs[..i])| < |NonLinks(jobs)| && NonLinks(jobs)[|NonLinks(jobs[..i])|] == jobs[i]
  {
    var front := jobs[..|jobs| - 1];
    if i < |front| {
      NonLinksPrefix(front, i);
      assert front[..i] == jobs[..i];
    } else {
      assert jobs[..i] == front;
    }
  }

  lemma ReplyLinkAfterRows(p: Program, i: nat)
    requires Wired(p) && WellOrdered(p.script) && Delivered(p)
    requires i < |p.serial.accepted| && p.serial.accepted[i].LinkReply?
    ensures LinkAfterRows(p.serial.accepted[i], p.serial.accepted[..i])
  {
    var jobs, prefix := p.serial.accepted, p.script[..Done(p)];
    var before := jobs[..i];
    NonLinksPrefix(jobs, i);
    var q := SerialOfPrefix(prefix, |NonLinks(before)|);
    assert NonLinks(before) == NonLinks(jobs)[..|NonLinks(before)|] == SerialOf(prefix[..q]);
    assert prefix[..q] == p.script[..q] && Grounded(p.script[q], p.script[..q]);
    forall row: Entity | ToSerial(Save(row)) in p.script[..q]
      ensures Save(row) in before
    {
      SerialOfMember(p.script[..q], Save(row));
      NonLinksMember(before, Save(row));
    }
  }

  /** A link job comes after the jobs that save the rows it connects. */
  ghost predicate LinkAfterRows(job: SerialJob, before: seq<SerialJob>) {
    match job
    case LinkFile(row, _) => Save(row) in before
    case LinkReply(src, target, reason) =>
      Save(src) in before && (reason.Fetched? || reason.AlreadySaved? ==> Save(target) in before)
    case _ => true
  }

  lemma AcceptedLinksAfterRows(p: Program, i: nat)
    requires Wired(p) && WellOrdered(p.script) && Delivered(p) && RowsFirst(p) && i < |p.serial.accepted|
    ensures LinkAfterRows(p.serial.accepted[i], p.serial.accepted[..i])
  {
    if p.serial.accepted[i].LinkReply? {
      ReplyLinkAfterRows(p, i);
    }
  }

  /**
   Row before link on every run: a file's link job ends after the job that saved the row it links,
   although the link travels through two pools; a reply link ends after the save of the replying
   message and, if the replied message was fetched, after that message's save as well.
   */
  lemma RowBeforeLinkOnAnyRun(cap: nat, fileWorkers: set<Tid>, script: seq<Emission>, moves: seq<Move>, p: Program)
    requires InitiallySane(fileWorkers, script) && Leads(Start(cap, fileWorkers, script), moves, p)
    ensures forall i :: 0 <= i < |p.serial.finished| ==> p.serial.finished[i] < |p.serial.accepted|
    ensures forall i :: 0 <= i < |Executed(p.serial)| ==> LinkAfterRows(Executed(p.serial)[i], Executed(p.serial)[..i])
  {
    assert Ordered(p) by {
      StartOrdered(cap, fileWorkers, script);
      ReachableOrdered(Start(cap, fileWorkers, script), moves, p);
    }
    ExecutedLinks(p);
  }

  lemma ExecutedLinks(p: Program)
    requires InOrder(p.serial, SERIAL_WORKER) && p.serial.taken <= |p.serial.accepted|
    requires Wired(p) && WellOrdered(p.script) && Delivered(p) && RowsFirst(p)
    ensures forall i :: 0 <= i < |p.serial.finished| ==> p.serial.finished[i] < |p.serial.accepted|
    ensures forall i :: 0 <= i < |Executed(p.serial)| ==> LinkAfterRows(Executed(p.serial)[i], Executed(p.serial)[..i])
  {
    ExecutedInOrder(p.serial, SERIAL_WORKER);
    forall i: nat | i < |Executed(p.serial)|
      ensures LinkAfterRows(Executed(p.serial)[i], Executed(p.serial)[..i])
    {
      AcceptedLinksAfterRows(p, i);
      assert Executed(p.serial)[..i] == p.serial.accepted[..i];
    }
  }

  /** A pool at the end: nothing queued, every accepted job ended exactly once. */
  ghost predicate RanEverything<J>(p: Pool<J>) {
    && p.q == [] && p.dropped == []
    && |p.finished| == |p.accepted|
    && (forall i, j :: 0 <= i < j < |p.finished| ==> p.finished[i] != p.finished[j])
    && (forall k: nat :: k in p.finished <==> k < |p.accepted|)
  }

  lemma AllWorkersDone<J>(p: Pool<J>)
    requires Inv(p) && p.dropped == [] && p.workers != {} && forall w <- p.workers :: p.pc[w].WorkDone?
    ensures RanEverything(p)
  {
    var w :| w in p.workers;
    assert p.q == [];
    assert forall t :: t in p.pc ==> p.pc[t].Carried().None?;
    DistinctSize(p.finished);
    assert Elements(p.finished) == Below(|p.accepted|);
  }

  /**
   The two-stage drain loses nothing.  When start() returns, both pools have run every job they
   accepted exactly once and refused none; they accepted exactly the jobs the event loop posted, in
   order; and for each file job that posted its link, serial_ ran the link of that job's own row, exactly once.
   */
  lemma DrainLosesNothing(cap: nat, fileWorkers: set<Tid>, script: seq<Emission>, moves: seq<Move>, p: Program)
    requires InitiallySane(fileWorkers, script) && Leads(Start(cap, fileWorkers, script), moves, p)
    requires p.phase == Returned
    ensures RanEverything(p.files) && RanEverything(p.serial)
    ensures p.pos <= |p.script| && p.files.accepted == FilesOf(p.script[..p.pos])
    ensures NonLinks(p.serial.accepted) == SerialOf(p.script[..p.pos])
    ensures forall i :: 0 <= i < |p.serial.finished| ==> p.serial.finished[i] < |p.serial.accepted|
    ensures forall k <- p.posted ::
      k < |p.files.accepted| && RanOnce(Executed(p.serial), LinkFile(p.files.accepted[k].row, k))
  {
    assert Ordered(p) by {
      StartOrdered(cap, fileWorkers, script);
      ReachableOrdered(Start(cap, fileWorkers, script), moves, p);
    }
    ReturnedIsDrained(p);
    ReturnedLinks(p);
  }

  /** The job is among those that ran, at one place only. */
  ghost predicate RanOnce<J>(jobs: seq<J>, job: J) {
    exists i :: 0 <= i < |jobs| && jobs[i] == job && forall j :: 0 <= j < |jobs| && jobs[j] == job ==> j == i
  }

  lemma ReturnedLinks(p: Program)
    requires Base(p) && Linked(p) && RanEverything(p.serial)
    requires forall k <- p.posted :: k in p.files.finished
    ensures forall i :: 0 <= i < |p.serial.finished| ==> p.serial.finished[i] < |p.serial.accepted|
    ensures forall k <- p.posted ::
      k < |p.files.accepted| && RanOnce(Executed(p.serial), LinkFile(p.files.accepted[k].row, k))
  {
    ExecutedInOrder(p.serial, SERIAL_WORKER);
    var jobs := Executed(p.serial);
    assert jobs == p.serial.accepted;
    forall k | k in p.posted
      ensures k < |p.files.accepted| && RanOnce(jobs, LinkFile(p.files.accepted[k].row, k))
    {
      var link := LinkFile(p.files.accepted[k].row, k);
      assert LinkOf(p, k) == link;
      var i :| 0 <= i < |jobs| && jobs[i] == link;
      assert forall j :: 0 <= j < |jobs| && jobs[j] == link ==> j == i;
    }
  }

  /** Whatever link serial_ has accepted on a run names the row of the file job whose ticket it carries. */
  lemma LinksNameTheirRows(cap: nat, fileWorkers: set<Tid>, script: seq<Emission>, moves: seq<Move>, p: Program)
    requires InitiallySane(fileWorkers, script) && Leads(Start(cap, fileWorkers, script), moves, p)
    ensures forall job <- p.serial.accepted :: job.LinkFile? ==>
      job.ticket < |p.files.accepted| && job.row == p.files.accepted[job.ticket].row
  {
    assert Ordered(p) by {
      StartOrdered(cap, fileWorkers, script);
      ReachableOrdered(Start(cap, fileWorkers, script), moves, p);
    }
    AcceptedLinksNameRows(p);
  }

  lemma AcceptedLinksNameRows(p: Program)
    requires Wired(p) && Linking(p) && LinksOnce(p)
    ensures forall job <- p.serial.accepted :: job.LinkFile? ==>
      job.ticket < |p.files.accepted| && job.row == p.files.accepted[job.ticket].row
  {
  }

  ghost predicate LinksUnique(jobs: seq<SerialJob>) {
    forall i, j :: 0 <= i < j < |jobs| && jobs[i].LinkFile? ==> jobs[j] != jobs[i]
  }

  lemma ReturnedIsDrained(p: Program)
    requires Base(p) && Delivered(p) && Linked(p) && p.phase == Returned
    ensures RanEverything(p.files) && RanEverything(p.serial) && Done(p) == p.pos
    ensures forall k <- p.posted :: k in p.files.finished
  {
    AllWorkersDone(p.files);
    AllWorkersDone(p.serial);
  }

  /** The queue of a pool is the untaken rest of what it accepted, within the cap. */
  ghost predicate Bounded<J>(p: Pool<J>, cap: nat) {
    && p.dropped == [] && (cap != 0 ==> |p.q| <= cap)
    && p.taken <= |p.accepted| && p.accepted == p.accepted[..p.taken] + p.q
  }

  lemma QueuedBounded<J>(p: Pool<J>)
    requires Queued(p) && p.dropped == []
    ensures Bounded(p, p.cap)
  {
  }

  /** Neither queue ever exceeds a nonzero cap, and neither pool refuses a job, on any run. */
  lemma BoundedAndLossless(cap: nat, fileWorkers: set<Tid>, script: seq<Emission>, moves: seq<Move>, p: Program)
    requires InitiallySane(fileWorkers, script) && Leads(Start(cap, fileWorkers, script), moves, p)
    ensures Bounded(p.files, cap) && Bounded(p.serial, cap)
  {
    CapsKept(Start(cap, fileWorkers, script), moves, p);
    assert Bounded(p.files, p.files.cap) && Bounded(p.serial, p.serial.cap) by {
      StartOrdered(cap, fileWorkers, script);
      ReachableOrdered(Start(cap, fileWorkers, script), moves, p);
      QueuedBounded(p.files);
      QueuedBounded(p.serial);
    }
  }

  lemma {:induction false} CapsKept(p: Program, moves: seq<Move>, p': Program)
    requires Leads(p, moves, p')
    ensures p'.files.cap == p.files.cap && p'.serial.cap == p.serial.cap && p'.script == p.script
    decreases |moves|
  {
    if moves != [] {
      CapsKept(Moved(p, moves[0]), moves[1..], p');
    }
  }
}
