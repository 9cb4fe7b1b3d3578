/**
 Round-robin polling of administrators: who is refreshed in a tick, how long a chat can wait, and when
 it leaves the poll set.
 */
module AdminPolling {
  import opened Common
  import opened Models
  import opened EventLoop
  import opened EventLoopView
  import opened EventLoopEffects
  import opened EventLoopProtocols
  import opened EventTraffic
  import opened EventMemory
  import opened EventAnswers
  import opened EventScript

  // ---------------------------------------------------------------- one tick

  lemma LookPollable(s: State)
    requires Fresh(s) && s.core.pollQueue != [] && Known(s.core, s.core.pollQueue)
    ensures Known(Look(s).core, Look(s).core.pollQueue) && Fresh(Look(s))
    ensures IsHit(s) <==> s.core.pollQueue[0] in s.core.pollSet
  {
    LookEffect(s);
    assert s.core.pollQueue[0] in s.core.pollQueue;
    forall chat <- Look(s).core.pollQueue
      ensures Pollable(Look(s).core, chat)
    {
      assert chat in s.core.pollQueue;
    }
  }

  lemma TraceCons(tracked: set<int>, queue: seq<int>, n: nat)
    requires n < |queue|
    ensures n <= |TurnOnce(tracked, queue)|
    ensures Kept(tracked, queue[..n + 1])
         == (if queue[0] in tracked then [queue[0]] else []) + Kept(tracked, TurnOnce(tracked, queue)[..n])
  {
    KeptCons(tracked, queue[..n + 1]);
    assert queue[..n + 1][1..] == TurnOnce(tracked, queue)[..n];
  }

  /** The tick looks at the first n chats, refreshes the tracked ones, and stops early only after a full batch. */
  ghost predicate Traced(s: State, polled: nat, scan: nat, n: nat) {
    && n <= scan <= |s.core.pollQueue|
    && Poll(s, polled, scan).core.pollQueue == Turns(s.core.pollSet, s.core.pollQueue, n)
    && Refreshed(s, polled, scan) == Kept(s.core.pollSet, s.core.pollQueue[..n])
    && (if n == scan then polled + |Refreshed(s, polled, scan)| <= s.core.batch
        else polled + |Refreshed(s, polled, scan)| == s.core.batch)
  }

  lemma LookTrace(s: State, polled: nat, scan: nat, n: nat)
    requires Fresh(s) && Known(s.core, s.core.pollQueue) && polled < s.core.batch && 0 < scan <= |s.core.pollQueue|
    requires Traced(Look(s), if IsHit(s) then polled + 1 else polled, scan - 1, n)
    ensures Traced(s, polled, scan, n + 1)
  {
    LookEffect(s);
    LookPollable(s);
    TurnsCons(s.core.pollSet, s.core.pollQueue, n);
    TraceCons(s.core.pollSet, s.core.pollQueue, n);
    assert Refreshed(s, polled, scan)
        == FrontHit(s) + Refreshed(Look(s), if IsHit(s) then polled + 1 else polled, scan - 1);
  }

  lemma {:induction false} PollTrace(s: State, polled: nat, scan: nat) returns (n: nat)
    requires Fresh(s) && Known(s.core, s.core.pollQueue) && scan <= |s.core.pollQueue| && polled <= s.core.batch
    ensures Traced(s, polled, scan, n)
    decreases scan
  {
    if polled < s.core.batch && scan > 0 {
      LookEffect(s);
      LookPollable(s);
      n := PollTrace(Look(s), if IsHit(s) then polled + 1 else polled, scan - 1);
      LookTrace(s, polled, scan, n);
      n := n + 1;
    } else {
      n := 0;
      assert Turns(s.core.pollSet, s.core.pollQueue, 0) == s.core.pollQueue;
    }
  }

  /** The event is an alarm that finds the client usable. */
  predicate IsTick(s: State, e: Event) {
    AnswersAlarm(s, e) && !s.core.stopped && !s.core.closing && s.core.authorized
  }

  /** The chats refreshed by an event. */
  function PolledBy(s: State, e: Event): seq<int> {
    if IsTick(s, e) then Refreshed(WithHandlers(s, s.handlers - {e.id}), 0, |s.core.pollQueue|) else []
  }

  /**
   In one tick no chat is refreshed twice, at most a batch is, all of them tracked, and exactly their
   queries and the next alarm are sent.
   */
  lemma TickIsFair(s: State, e: Event)
    requires Fresh(s) && QueueSound(s.core) && IsTick(s, e)
    ensures Distinct(PolledBy(s, e)) && |PolledBy(s, e)| <= s.core.batch
    ensures forall chat <- PolledBy(s, e) :: chat in s.core.pollSet && Pollable(s.core, chat)
    ensures Known(s.core, PolledBy(s, e)) && Traffic(Received(s, e), Step(s, e), [],
      RefreshAsks(s.core, PolledBy(s, e)) + [Ask(SetAlarm, Some(Alarm))])
  {
    var s1, queue := WithHandlers(s, s.handlers - {e.id}), s.core.pollQueue;
    assert Fresh(s1) && Known(s1.core, s1.core.pollQueue);
    var n := PollTrace(s1, 0, |queue|);
    KeptSound(s.core.pollSet, queue[..n]);
    PollDoes(s1, 0, |queue|);
    AlarmRangDoes(s1);
  }

  // ---------------------------------------------------------------- waiting

  lemma InPrefix(queue: seq<int>, n: nat)
    requires n <= |queue|
    ensures forall p :: 0 <= p < n ==> queue[p] in queue[..n]
  {
    assert forall p :: 0 <= p < n ==> queue[..n][p] == queue[p];
  }

  /** A tracked chat that was not among the first n chats is now n places further ahead. */
  lemma LookedPast(tracked: set<int>, queue: seq<int>, n: nat, p: nat)
    requires Distinct(queue) && n <= |queue| && p < |queue|
    requires queue[p] in tracked && queue[p] !in Kept(tracked, queue[..n])
    ensures |Kept(tracked, queue[..n])| <= n <= p
    ensures p - n < |Turns(tracked, queue, n)| && Turns(tracked, queue, n)[p - n] == queue[p]
  {
    KeptSound(tracked, queue[..n]);
    InPrefix(queue, n);
  }

  /** A chat that a tick does not refresh moves a full batch forward. */
  lemma TickAdvances(s: State, e: Event, chat: int, p: nat) returns (p': nat)
    requires Fresh(s) && QueueSound(s.core) && IsTick(s, e)
    requires p < |s.core.pollQueue| && s.core.pollQueue[p] == chat && chat in s.core.pollSet
    requires chat !in PolledBy(s, e)
    ensures p' + s.core.batch <= p
    ensures p' < |Step(s, e).core.pollQueue| && Step(s, e).core.pollQueue[p'] == chat
  {
    var s1, queue, tracked := WithHandlers(s, s.handlers - {e.id}), s.core.pollQueue, s.core.pollSet;
    assert Fresh(s1) && Known(s1.core, s1.core.pollQueue);
    var n := PollTrace(s1, 0, |queue|);
    LookedPast(tracked, queue, n, p);
    p' := p - n;
    assert Step(s, e).core == Poll(s1, 0, |queue|).core;
  }

  /** Other events leave a queued chat where it is: new chats go to the rear. */
  lemma {:induction false} PlainKeepsQueue(v: View, f: Effect)
    requires Plain(f)
    ensures KeepsQueue(v.core, After(v, f).core)
  {
    if TouchesReplies(f) {
      RepliesKeepCore(v, f);
      SameQueue(v.core, After(v, f).core);
    } else if f.Bound? {
      BoundKeepsQueue(v.core, f.chat, f.group, f.st, f.track);
    } else {
      SameQueue(v.core, After(v, f).core);
    }
  }

  ghost predicate KeepsQueue(c: Core, c': Core) {
    c.pollQueue <= c'.pollQueue && c.pollSet <= c'.pollSet && c'.batch == c.batch && c'.pollMiss == c.pollMiss
  }

  lemma BoundKeepsQueue(c: Core, chat: int, group: int, st: GroupState, track: bool)
    ensures KeepsQueue(c, BoundCore(c, chat, group, st, track))
  {
  }

  lemma SameQueue(c: Core, c': Core)
    requires (c'.pollQueue, c'.pollSet, c'.batch, c'.pollMiss) == (c.pollQueue, c.pollSet, c.batch, c.pollMiss)
    ensures KeepsQueue(c, c')
  {
  }

  lemma {:induction false} PlainMovesKeepQueue(v: View, v': View)
    requires PlainMoves(v, v')
    ensures KeepsQueue(v.core, v'.core)
  {
    var f :| Possible(v, f) && v' == After(v, f) && Plain(f);
    PlainKeepsQueue(v, f);
  }

  lemma NoTickKeepsPlace(s: State, e: Event)
    requires Fresh(s) && Plausible(s, e) && !IsTick(s, e)
    ensures s.core.pollQueue <= Step(s, e).core.pollQueue && Step(s, e).core.batch == s.core.batch
  {
    if AnswersAlarm(s, e) {
      assert Step(s, e).core == s.core;
    } else if AnswersAdmins(s, e) {
      AdminStep(s, e);
    } else {
      PlainStep(s, e);
      PlainMovesKeepQueue(ViewOf(s), ViewOf(Step(s, e)));
    }
  }

  /** An alarm changes nothing but the queue. */
  lemma AlarmKeepsCore(s: State, e: Event)
    requires Fresh(s) && AnswersAlarm(s, e)
    ensures Step(s, e).core == s.core.(pollQueue := Step(s, e).core.pollQueue)
  {
    if IsTick(s, e) {
      var s1 := WithHandlers(s, s.handlers - {e.id});
      var n := PollEffect(s1, 0, |s1.core.pollQueue|);
      assert Step(s, e).core == ViewOf(Poll(s1, 0, |s1.core.pollQueue|)).core;
    } else {
      assert Step(s, e).core == s.core;
    }
  }

  lemma StepKeepsBatch(s: State, e: Event)
    requires Fresh(s) && Plausible(s, e)
    ensures Step(s, e).core.batch == s.core.batch
  {
    if AnswersAlarm(s, e) {
      AlarmKeepsCore(s, e);
    } else {
      NoTickKeepsPlace(s, e);
    }
  }

  function Ticks(s: State, events: seq<Event>): nat {
    if events == [] then 0
    else
      var front := events[..|events| - 1];
      Ticks(s, front) + if IsTick(Run(s, front), events[|events| - 1]) then 1 else 0
  }

  /** The chat stays tracked and is not refreshed during the run. */
  ghost predicate Waits(s: State, events: seq<Event>, chat: int) {
    forall i :: 0 <= i < |events| ==>
      chat in Run(s, events[..i]).core.pollSet && chat !in PolledBy(Run(s, events[..i]), events[i])
  }

  /** Where the chat is in the queue. */
  function Place(queue: seq<int>, chat: int): nat {
    if queue == [] || queue[0] == chat then 0 else Place(queue[1..], chat) + 1
  }

  lemma {:induction false} PlaceIs(queue: seq<int>, p: nat)
    requires Distinct(queue) && p < |queue|
    ensures Place(queue, queue[p]) == p
  {
    if p > 0 {
      PlaceIs(queue[1..], p - 1);
    }
  }

  /** A waiting chat never falls back, and a tick moves it a full batch forward. */
  lemma StepAdvances(s: State, e: Event, chat: int)
    requires Fresh(s) && QueueSound(s.core) && Plausible(s, e) && QueueSound(Step(s, e).core)
    requires chat in s.core.pollSet && chat !in PolledBy(s, e)
    ensures Place(Step(s, e).core.pollQueue, chat) + (if IsTick(s, e) then s.core.batch else 0)
         <= Place(s.core.pollQueue, chat)
  {
    var p :| 0 <= p < |s.core.pollQueue| && s.core.pollQueue[p] == chat;
    PlaceIs(s.core.pollQueue, p);
    var p' := p;
    if IsTick(s, e) {
      p' := TickAdvances(s, e, chat, p);
    } else {
      NoTickKeepsPlace(s, e);
    }
    PlaceIs(Step(s, e).core.pollQueue, p');
  }

  function TicksIn(ticks: seq<bool>): nat {
    if ticks == [] then 0 else TicksIn(ticks[..|ticks| - 1]) + if ticks[|ticks| - 1] then 1 else 0
  }

  /** Places that never rise and fall by a batch in each tick. */
  lemma {:induction false} Falling(places: seq<nat>, ticks: seq<bool>, batch: nat)
    requires |places| == |ticks| + 1
    requires forall i :: 0 <= i < |ticks| ==> places[i + 1] + (if ticks[i] then batch else 0) <= places[i]
    ensures places[|ticks|] + TicksIn(ticks) * batch <= places[0]
  {
    if ticks != [] {
      var n := |ticks| - 1;
      Falling(places[..n + 1], ticks[..n], batch);
      assert (TicksIn(ticks[..n]) + 1) * batch == TicksIn(ticks[..n]) * batch + batch;
    }
  }

  function TickMarks(s: State, events: seq<Event>): (ticks: seq<bool>)
    ensures |ticks| == |events|
    ensures forall i :: 0 <= i < |events| ==> ticks[i] == IsTick(Run(s, events[..i]), events[i])
  {
    seq(|events|, i requires 0 <= i < |events| => IsTick(Run(s, events[..i]), events[i]))
  }

  lemma MarksFront(s: State, events: seq<Event>)
    requires events != []
    ensures TickMarks(s, events)[..|events| - 1] == TickMarks(s, events[..|events| - 1])
  {
    var n := |events| - 1;
    assert forall i :: 0 <= i < n ==> events[..n][..i] == events[..i];
    forall i | 0 <= i < n
      ensures TickMarks(s, events)[..n][i] == TickMarks(s, events[..n])[i]
    {
    }
  }

  lemma {:induction false} TicksMarked(s: State, events: seq<Event>)
    ensures TicksIn(TickMarks(s, events)) == Ticks(s, events)
  {
    if events != [] {
      var n := |events| - 1;
      TicksMarked(s, events[..n]);
      MarksFront(s, events);
    }
  }

  /** Every event of the run, as long as the chat waits. */
  lemma RunAdvances(s: State, events: seq<Event>, chat: int, i: nat)
    requires Fresh(s) && Invariant(ViewOf(s)) && PlausibleRun(s, events) && Waits(s, events, chat) && i < |events|
    ensures Place(Run(s, events[..i + 1]).core.pollQueue, chat)
          + (if IsTick(Run(s, events[..i]), events[i]) then s.core.batch else 0)
         <= Place(Run(s, events[..i]).core.pollQueue, chat)
  {
    PrefixPlausible(s, events, i);
    PrefixPlausible(s, events, i + 1);
    InvariantOnAnyRun(s, events[..i]);
    InvariantOnAnyRun(s, events[..i + 1]);
    BatchOnAnyRun(s, events[..i]);
    assert events[..i + 1][..i] == events[..i];
    StepAdvances(Run(s, events[..i]), events[i], chat);
  }

  function Places(s: State, events: seq<Event>, chat: int): (places: seq<nat>)
    ensures |places| == |events| + 1
    ensures forall i :: 0 <= i <= |events| ==> places[i] == Place(Run(s, events[..i]).core.pollQueue, chat)
  {
    seq(|events| + 1, i requires 0 <= i <= |events| => Place(Run(s, events[..i]).core.pollQueue, chat))
  }

  lemma WaitingIsBounded(s: State, events: seq<Event>, chat: int, p: nat)
    requires Fresh(s) && Invariant(ViewOf(s)) && PlausibleRun(s, events) && Waits(s, events, chat)
    requires p < |s.core.pollQueue| && s.core.pollQueue[p] == chat
    ensures Ticks(s, events) * s.core.batch <= p
  {
    var places, ticks := Places(s, events, chat), TickMarks(s, events);
    forall i | 0 <= i < |events|
      ensures places[i + 1] + (if ticks[i] then s.core.batch else 0) <= places[i]
    {
      RunAdvances(s, events, chat, i);
    }
    Falling(places, ticks, s.core.batch);
    TicksMarked(s, events);
    assert events[..0] == [];
    PlaceIs(s.core.pollQueue, p);
  }

  lemma Multiples(a: nat, b: nat, m: nat)
    ensures a >= b ==> a * m >= b * m
  {
    if a >= b {
      assert a * m == b * m + (a - b) * m;
    }
  }

  lemma {:induction false} TicksBound(ticks: nat, batch: nat, p: nat)
    requires batch >= 1 && ticks * batch <= p
    ensures ticks <= p / batch
  {
    var q := p / batch;
    assert p < (q + 1) * batch;
    Multiples(ticks, q + 1, batch);
  }

  /**
   Bounded waiting.  A chat at position p of the queue is refreshed within p / batch + 1 ticks or
   evicted first, whatever chats arrive or are evicted meanwhile.
   */
  lemma {:induction false} BoundedWaiting(s: State, events: seq<Event>, chat: int, p: nat)
    requires Fresh(s) && Invariant(ViewOf(s)) && PlausibleRun(s, events) && s.core.batch >= 1
    requires p < |s.core.pollQueue| && s.core.pollQueue[p] == chat
    requires Ticks(s, events) >= p / s.core.batch + 1
    ensures exists i :: (0 <= i < |events|
      && (chat in PolledBy(Run(s, events[..i]), events[i]) || chat !in Run(s, events[..i]).core.pollSet))
  {
    if Waits(s, events, chat) {
      WaitingIsBounded(s, events, chat, p);
      TicksBound(Ticks(s, events), s.core.batch, p);
    }
  }

  lemma {:induction false} PrefixPlausible(s: State, events: seq<Event>, n: nat)
    requires PlausibleRun(s, events) && n <= |events|
    ensures PlausibleRun(s, events[..n])
  {
    assert forall i :: 0 <= i < n ==> events[..n][..i] == events[..i];
  }

  lemma {:induction false} BatchOnAnyRun(s: State, events: seq<Event>)
    requires Fresh(s) && Invariant(ViewOf(s)) && PlausibleRun(s, events)
    ensures Run(s, events).core.batch == s.core.batch
  {
    if events != [] {
      var front := events[..|events| - 1];
      FrontPlausible(s, events);
      BatchOnAnyRun(s, front);
      InvariantOnAnyRun(s, front);
      StepKeepsBatch(Run(s, front), events[|events| - 1]);
    }
  }

  /** The same from any reachable state, for the batch the client was configured with. */
  lemma {:induction false} BoundedWaitingOnAnyRun(
    pollEnabled: bool, batch: nat, before: seq<Event>, events: seq<Event>, chat: int, p: nat)
    requires batch >= 1 && PlausibleRun(Start(pollEnabled, batch), before)
    requires PlausibleRun(Run(Start(pollEnabled, batch), before), events)
    requires var queue := Run(Start(pollEnabled, batch), before).core.pollQueue; p < |queue| && queue[p] == chat
    requires Ticks(Run(Start(pollEnabled, batch), before), events) >= p / batch + 1
    ensures var s := Run(Start(pollEnabled, batch), before);
      exists i :: (0 <= i < |events|
        && (chat in PolledBy(Run(s, events[..i]), events[i]) || chat !in Run(s, events[..i]).core.pollSet))
  {
    StartSound(pollEnabled, batch);
    InvariantOnAnyRun(Start(pollEnabled, batch), before);
    BatchOnAnyRun(Start(pollEnabled, batch), before);
    BoundedWaiting(Run(Start(pollEnabled, batch), before), events, chat, p);
  }

  /** What holds after the next event of a run as well. */
  lemma NextSound(pollEnabled: bool, batch: nat, before: seq<Event>, e: Event)
    requires PlausibleRun(Start(pollEnabled, batch), before) && Plausible(Run(Start(pollEnabled, batch), before), e)
    ensures var s := Run(Start(pollEnabled, batch), before); var s' := Step(s, e);
      Fresh(s) && Fresh(s') && Invariant(ViewOf(s')) && s'.core.batch == batch
  {
    var s := Run(Start(pollEnabled, batch), before);
    StartSound(pollEnabled, batch);
    InvariantOnAnyRun(Start(pollEnabled, batch), before);
    BatchOnAnyRun(Start(pollEnabled, batch), before);
    StepKeepsBatch(s, e);
    NextInvariant(s, e);
  }

  lemma NextInvariant(s: State, e: Event)
    requires Fresh(s) && Invariant(ViewOf(s)) && Plausible(s, e)
    ensures Fresh(Step(s, e)) && Invariant(ViewOf(Step(s, e)))
  {
    StepMoves(s, e);
    var f :| Possible(ViewOf(s), f) && ViewOf(Step(s, e)) == After(ViewOf(s), f);
    InvariantKept(ViewOf(s), f);
  }

  /**
   Every group of the chat list is polled.  From the event on that lists it for the first time, its chat is
   refreshed within as many ticks as the chats queued before it take, or evicted first.
   */
  lemma {:induction false} ListedGroupIsPolled(
    pollEnabled: bool, batch: nat, before: seq<Event>, e: Event, events: seq<Event>, chat: int)
    requires batch >= 1 && PlausibleRun(Start(pollEnabled, batch), before)
    requires Plausible(Run(Start(pollEnabled, batch), before), e)
    requires Lists(Run(Start(pollEnabled, batch), before), e, chat)
    requires PlausibleRun(Step(Run(Start(pollEnabled, batch), before), e), events)
    requires Ticks(Step(Run(Start(pollEnabled, batch), before), e), events)
          >= |Run(Start(pollEnabled, batch), before).core.pollQueue| / batch + 1
    ensures var s := Step(Run(Start(pollEnabled, batch), before), e);
      exists i :: (0 <= i < |events|
        && (chat in PolledBy(Run(s, events[..i]), events[i]) || chat !in Run(s, events[..i]).core.pollSet))
  {
    var s := Run(Start(pollEnabled, batch), before);
    NextSound(pollEnabled, batch, before, e);
    StepTracks(s, e, chat);
    BoundedWaiting(Step(s, e), events, chat, |s.core.pollQueue|);
  }

  // ---------------------------------------------------------------- misses and eviction

  predicate AnswersFor(s: State, e: Event, chat: int) {
    AnswersAdmins(s, e) && s.handlers[e.id].chat == chat
  }

  /** Permission errors for the chat since its last member list. */
  function DenialsSince(s: State, events: seq<Event>, chat: int): nat {
    if events == [] then 0
    else
      var front, e := events[..|events| - 1], events[|events| - 1];
      var earlier := DenialsSince(s, front, chat);
      if !AnswersFor(Run(s, front), e, chat) then earlier
      else if e.o.MembersObject? then 0
      else if e.o == ErrorObject(400) || e.o == ErrorObject(403) then earlier + 1
      else earlier
  }

  function MissesOf(c: Core, chat: int): nat {
    if chat in c.pollMiss then c.pollMiss[chat] else 0
  }

  /** Only answers for the chat itself change its miss counter, and only denials take it out of the poll set. */
  lemma OthersKeepMisses(s: State, e: Event, chat: int)
    requires Fresh(s) && Plausible(s, e) && !AnswersFor(s, e, chat)
    ensures MissesOf(Step(s, e).core, chat) == MissesOf(s.core, chat)
    ensures chat in s.core.pollSet ==> chat in Step(s, e).core.pollSet
  {
    if AnswersAlarm(s, e) {
      AlarmKeepsCore(s, e);
    } else if AnswersAdmins(s, e) {
      AdminStep(s, e);
      OtherChatsKeepMisses(ViewOf(s), s.handlers[e.id].chat, e.o, chat);
    } else {
      PlainStep(s, e);
      PlainMovesKeepQueue(ViewOf(s), ViewOf(Step(s, e)));
    }
  }

  lemma OtherChatsKeepMisses(v: View, other: int, o: Object, chat: int)
    requires other != chat
    ensures var v' := After(v, AdminEffect(other, o));
      && MissesOf(v'.core, chat) == MissesOf(v.core, chat)
      && (chat in v.core.pollSet ==> chat in v'.core.pollSet)
  {
  }

  lemma AnswerForChat(s: State, e: Event, chat: int)
    requires Fresh(s) && AnswersFor(s, e, chat)
    ensures MissesOf(Step(s, e).core, chat) ==
      (if e.o.MembersObject? then 0 else if IsDenial(e.o) then MissesOf(s.core, chat) + 1 else MissesOf(s.core, chat))
    ensures chat in s.core.pollSet ==>
      (chat !in Step(s, e).core.pollSet <==> IsDenial(e.o) && MissesOf(s.core, chat) + 1 >= ADMIN_POLL_MAX_MISS)
  {
    AdminStep(s, e);
  }

  lemma {:induction false} MissesAreDenials(pollEnabled: bool, batch: nat, events: seq<Event>, chat: int)
    requires PlausibleRun(Start(pollEnabled, batch), events)
    ensures MissesOf(Run(Start(pollEnabled, batch), events).core, chat)
      == DenialsSince(Start(pollEnabled, batch), events, chat)
  {
    var s := Start(pollEnabled, batch);
    if events != [] {
      var front, e := events[..|events| - 1], events[|events| - 1];
      FrontPlausible(s, events);
      MissesAreDenials(pollEnabled, batch, front, chat);
      StartSound(pollEnabled, batch);
      InvariantOnAnyRun(s, front);
      if AnswersFor(Run(s, front), e, chat) {
        AnswerForChat(Run(s, front), e, chat);
      } else {
        OthersKeepMisses(Run(s, front), e, chat);
      }
    }
  }

  // ---------------------------------------------------------------- eviction

  /**
   The group of every known chat is known, only known chats have misses, and a tracked chat has fewer than
   it takes to be evicted.
   */
  ghost predicate Tracking(c: Core) {
    && (forall chat <- c.chatGroup :: Pollable(c, chat))
    && (forall chat <- c.pollMiss :: chat in c.chatGroup)
    && (forall chat <- c.pollSet :: MissesOf(c, chat) < ADMIN_POLL_MAX_MISS)
  }

  /** A known chat that is not tracked. */
  predicate Dropped(c: Core, chat: int) {
    chat in c.chatGroup && chat !in c.pollSet
  }

  /** Known chats stay known, and once dropped, a chat stays dropped. */
  ghost predicate Evicts(c: Core, c': Core) {
    Tracking(c) ==>
      && Tracking(c') && c.chatGroup.Keys <= c'.chatGroup.Keys
      && forall chat :: Dropped(c, chat) ==> Dropped(c', chat)
  }

  lemma BoundEvicts(c: Core, chat: int, group: int, st: GroupState, track: bool)
    requires chat in c.chatGroup ==> c.chatGroup[chat] == group
    requires track ==> group !in c.groups
    ensures Evicts(c, BoundCore(c, chat, group, st, track))
  {
    var c' := BoundCore(c, chat, group, st, track);
    if Tracking(c) {
      assert track ==> chat !in c.chatGroup && MissesOf(c', chat) == 0;
      assert forall other <- c.pollSet :: MissesOf(c', other) == MissesOf(c, other);
    }
  }

  lemma SamePolling(c: Core, c': Core)
    requires c'.chatGroup == c.chatGroup && c'.pollMiss == c.pollMiss && c'.pollSet == c.pollSet
    requires c.groups.Keys <= c'.groups.Keys
    ensures Evicts(c, c')
  {
    assert forall chat :: MissesOf(c', chat) == MissesOf(c, chat);
  }

  lemma {:induction false} PlainEvicts(v: View, f: Effect)
    requires Plain(f) && Possible(v, f)
    ensures Evicts(v.core, After(v, f).core)
  {
    if f.Bound? {
      BoundEvicts(v.core, f.chat, f.group, f.st, f.track);
    } else {
      if TouchesReplies(f) {
        RepliesKeepCore(v, f);
      }
      SamePolling(v.core, After(v, f).core);
    }
  }

  lemma MissEvicts(c: Core, chat: int)
    requires chat in c.chatGroup
    ensures Evicts(c, MissCounted(c, chat))
  {
    assert forall other :: other != chat ==> MissesOf(MissCounted(c, chat), other) == MissesOf(c, other);
  }

  lemma ListEvicts(c: Core, chat: int)
    ensures Evicts(c, c.(pollMiss := c.pollMiss - {chat}))
  {
    assert forall other :: MissesOf(c.(pollMiss := c.pollMiss - {chat}), other) <= MissesOf(c, other);
  }

  lemma AdminEvicts(v: View, chat: int, o: Object)
    requires chat in v.core.chatGroup
    ensures Evicts(v.core, After(v, AdminEffect(chat, o)).core)
  {
    if o.MembersObject? {
      ListEvicts(v.core, chat);
    } else if IsDenial(o) {
      MissEvicts(v.core, chat);
    }
  }

  lemma StepEvicts(s: State, e: Event)
    requires Fresh(s) && ScriptInv(s) && Plausible(s, e)
    ensures Evicts(s.core, Step(s, e).core)
  {
    if AnswersAlarm(s, e) {
      AlarmKeepsCore(s, e);
      SamePolling(s.core, Step(s, e).core);
    } else if AnswersAdmins(s, e) {
      AdminStep(s, e);
      assert InFlight(s, s.handlers[e.id]);
      AdminEvicts(ViewOf(s), s.handlers[e.id].chat, e.o);
    } else {
      PlainStep(s, e);
      var f :| Possible(ViewOf(s), f) && ViewOf(Step(s, e)) == After(ViewOf(s), f) && Plain(f);
      PlainEvicts(ViewOf(s), f);
    }
  }

  lemma {:induction false} TrackingOnAnyRun(s: State, events: seq<Event>)
    requires Asked(s) && ScriptInv(s) && Tracking(s.core) && PlausibleRun(s, events)
    ensures Tracking(Run(s, events).core)
    ensures forall chat :: Dropped(s.core, chat) ==> Dropped(Run(s, events).core, chat)
  {
    if events != [] {
      var front, e := events[..|events| - 1], events[|events| - 1];
      FrontPlausible(s, events);
      TrackingOnAnyRun(s, front);
      ScriptInvOnAnyRun(s, front);
      StepEvicts(Run(s, front), e);
    }
  }

  /**
   On every run a tracked chat has had fewer than three 400/403 errors since its last member list, and
   leaves the poll set exactly at the third.
   */
  lemma EvictedAfterThreeDenials(pollEnabled: bool, batch: nat, events: seq<Event>, e: Event, chat: int)
    requires PlausibleRun(Start(pollEnabled, batch), events + [e])
    requires chat in Run(Start(pollEnabled, batch), events).core.pollSet
    ensures var s0 := Start(pollEnabled, batch); var s := Run(s0, events);
      && DenialsSince(s0, events, chat) < 3
      && (chat !in Step(s, e).core.pollSet
          <==> (AnswersFor(s, e, chat) && (e.o == ErrorObject(400) || e.o == ErrorObject(403))
                && DenialsSince(s0, events, chat) + 1 == 3))
  {
    var s0, all := Start(pollEnabled, batch), events + [e];
    assert all[..|all| - 1] == events;
    FrontPlausible(s0, all);
    MissesAreDenials(pollEnabled, batch, events, chat);
    StartSound(pollEnabled, batch);
    StartScripted(pollEnabled, batch);
    StartAsked(pollEnabled, batch);
    InvariantOnAnyRun(s0, events);
    TrackingOnAnyRun(s0, events);
    LeavesAtThird(Run(s0, events), e, chat);
  }

  lemma LeavesAtThird(s: State, e: Event, chat: int)
    requires Fresh(s) && Plausible(s, e) && chat in s.core.pollSet && MissesOf(s.core, chat) < 3
    ensures chat !in Step(s, e).core.pollSet
      <==> AnswersFor(s, e, chat) && IsDenial(e.o) && MissesOf(s.core, chat) + 1 == 3
  {
    if AnswersFor(s, e, chat) {
      AnswerForChat(s, e, chat);
    } else {
      OthersKeepMisses(s, e, chat);
    }
  }

  /** Eviction is for good: a chat that was tracked and is no longer is never tracked, nor polled, again. */
  lemma EvictedForGood(pollEnabled: bool, batch: nat, before: seq<Event>, e: Event, after: seq<Event>, chat: int)
    requires PlausibleRun(Start(pollEnabled, batch), before)
    requires Plausible(Run(Start(pollEnabled, batch), before), e)
    requires PlausibleRun(Step(Run(Start(pollEnabled, batch), before), e), after)
    requires chat in Run(Start(pollEnabled, batch), before).core.pollSet
    requires chat !in Step(Run(Start(pollEnabled, batch), before), e).core.pollSet
    ensures chat !in Run(Step(Run(Start(pollEnabled, batch), before), e), after).core.pollSet
  {
    var s0 := Start(pollEnabled, batch);
    StartSound(pollEnabled, batch);
    StartScripted(pollEnabled, batch);
    StartAsked(pollEnabled, batch);
    InvariantOnAnyRun(s0, before);
    ScriptInvOnAnyRun(s0, before);
    TrackingOnAnyRun(s0, before);
    StaysOut(Run(s0, before), e, after, chat);
  }

  lemma {:induction false} StaysOut(s: State, e: Event, after: seq<Event>, chat: int)
    requires Asked(s) && QueueSound(s.core) && ScriptInv(s) && Tracking(s.core) && Plausible(s, e)
    requires chat in s.core.pollSet && chat !in Step(s, e).core.pollSet && PlausibleRun(Step(s, e), after)
    ensures chat !in Run(Step(s, e), after).core.pollSet
  {
    assert chat in s.core.pollQueue && Pollable(s.core, chat);
    AskedIsFresh(s);
    StepKeepsAsked(s, e);
    StepKeepsScript(s, e);
    StepEvicts(s, e);
    assert Dropped(Step(s, e).core, chat);
    TrackingOnAnyRun(Step(s, e), after);
  }
}
