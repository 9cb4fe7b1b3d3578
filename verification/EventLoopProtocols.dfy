/**
 What every run of the event loop keeps: one alarm, a sound poll queue, and a reply walk that links
 every reply once and ends.
 */
module EventLoopProtocols {
  import opened Common
  import opened Models
  import opened EventLoop
  import opened EventLoopView
  import opened EventLoopEffects

  // ---------------------------------------------------------------- alarms

  /** At most one alarm, and exactly one while polling runs. */
  ghost predicate OneAlarm(v: View) {
    && (forall a, b :: IsAlarm(v, a) && IsAlarm(v, b) ==> a == b)
    && (v.core.pollStarted && !v.core.stopped && !v.core.closing ==> exists a :: IsAlarm(v, a))
    && (!v.core.pollStarted ==> forall a :: !IsAlarm(v, a))
  }

  predicate TouchesAlarms(f: Effect) {
    f.Started? || f.Ticked? || f.Ended?
  }

  predicate TouchesReplies(f: Effect) {
    f.Top? || f.FetchFailed? || f.Continued?
  }

  /** Most effects concern neither alarms nor replies. */
  lemma OtherEffects(v: View, f: Effect)
    requires !TouchesReplies(f)
    ensures var v' := After(v, f);
      && v'.links == v.links && v'.fetches == v.fetches
      && v'.core.replies == v.core.replies && v'.core.roots == v.core.roots && v'.core.resolved == v.core.resolved
      && (!TouchesAlarms(f) ==> v'.waiting == v.waiting && v'.core.pollStarted == v.core.pollStarted)
  {
  }

  /** Handling a reply touches only the reply part of the core. */
  ghost predicate SameButReplies(c: Core, c': Core) {
    c' == c.(replies := c'.replies, roots := c'.roots, resolved := c'.resolved)
  }

  lemma WalkKeepsCore(v: View, w: Walk)
    ensures SameButReplies(v.core, AfterWalk(v, w).core)
  {
    match w {
      case NoReply =>
      case Linked(src, target) => assert AfterWalk(v, w).core == Replied(v, src, target).core;
      case Fetching(_, src, target, _, _) => assert AfterWalk(v, w).core == Replied(v, src, target).core;
    }
  }

  lemma {:induction false} RepliesKeepCore(v: View, f: Effect)
    requires TouchesReplies(f)
    ensures SameButReplies(v.core, After(v, f).core)
  {
    if f.Top? {
      WalkKeepsCore(Rooted(v), f.w);
    } else if f.FetchFailed? {
      assert LinkClosed(v, f.fetch).core == v.core;
    } else if IsFetch(v, f.fetch) {
      WalkKeepsCore(Remembered(LinkClosed(v, f.fetch), v.waiting[f.fetch].target), f.w);
    }
  }

  ghost predicate SameAlarms(v: View, v': View) {
    forall a :: IsAlarm(v', a) <==> IsAlarm(v, a)
  }

  lemma WalkKeepsAlarms(v: View, w: Walk)
    requires w.Fetching? ==> w.id !in v.waiting
    ensures SameAlarms(v, AfterWalk(v, w))
  {
  }

  lemma ContinuedKeepsAlarms(v: View, fetch: nat, w: Walk)
    requires IsFetch(v, fetch) && (w.Fetching? ==> w.id !in LinkClosed(v, fetch).waiting)
    ensures SameAlarms(v, After(v, Continued(fetch, w)))
  {
    var v1 := Remembered(LinkClosed(v, fetch), v.waiting[fetch].target);
    assert SameAlarms(v, v1);
    WalkKeepsAlarms(v1, w);
  }

  lemma RepliesKeepAlarms(v: View, f: Effect)
    requires Possible(v, f) && TouchesReplies(f)
    ensures SameAlarms(v, After(v, f))
  {
    if f.Top? {
      assert SameAlarms(v, Rooted(v));
      WalkKeepsAlarms(Rooted(v), f.w);
    } else if f.Continued? {
      ContinuedKeepsAlarms(v, f.fetch, f.w);
    }
  }

  lemma OneAlarmKept(v: View, f: Effect)
    requires OneAlarm(v) && Possible(v, f)
    ensures OneAlarm(After(v, f))
  {
    var v' := After(v, f);
    if TouchesReplies(f) {
      RepliesKeepAlarms(v, f);
      RepliesKeepCore(v, f);
    } else if f.Started? || f.Ticked? {
      assert IsAlarm(v', f.id);
      forall a | IsAlarm(v', a)
        ensures a == f.id
      {
        assert a != f.id ==> IsAlarm(v, a);
      }
    } else if f.Ended? {
      forall a
        ensures !IsAlarm(v', a)
      {
        assert IsAlarm(v', a) ==> IsAlarm(v, a);
      }
    } else {
      OtherEffects(v, f);
      assert SameAlarms(v, v');
    }
  }

  // ---------------------------------------------------------------- the poll queue

  ghost predicate Distinct(queue: seq<int>) {
    forall i, j :: 0 <= i < j < |queue| ==> queue[i] != queue[j]
  }

  /** The groups of the chats are known. */
  ghost predicate Known(c: Core, chats: seq<int>) {
    forall chat <- chats :: Pollable(c, chat)
  }

  /** No chat is queued twice, tracked chats are queued, and the group of a queued chat is known. */
  ghost predicate QueueSound(c: Core) {
    && Distinct(c.pollQueue)
    && (forall chat <- c.pollSet :: chat in c.pollQueue)
    && Known(c, c.pollQueue)
  }

  lemma {:induction false} KeptSound(tracked: set<int>, queue: seq<int>)
    requires Distinct(queue)
    ensures Distinct(Kept(tracked, queue)) && |Kept(tracked, queue)| <= |queue|
    ensures forall x :: x in Kept(tracked, queue) <==> x in queue && x in tracked
  {
    if queue != [] {
      KeptSound(tracked, queue[..|queue| - 1]);
      assert queue == queue[..|queue| - 1] + [queue[|queue| - 1]];
    }
  }

  /** Members of a, without repeats, may go behind b. */
  lemma DistinctRear(a: seq<int>, b: seq<int>, kept: seq<int>)
    requires Distinct(a + b) && Distinct(kept) && forall x :: x in kept ==> x in a
    ensures Distinct(b + kept)
  {
    var queue, rear := a + b, b + kept;
    forall i, j | 0 <= i < j < |rear|
      ensures rear[i] != rear[j]
    {
      if i < |b| {
        assert queue[|a| + i] == rear[i];
        if j < |b| {
          assert queue[|a| + j] == rear[j];
        } else {
          assert rear[j] in kept;
          var k :| 0 <= k < |a| && a[k] == rear[j];
          assert queue[k] == rear[j];
        }
      }
    }
  }

  lemma TurnsSound(tracked: set<int>, queue: seq<int>, n: nat)
    requires Distinct(queue) && n <= |queue|
    ensures Distinct(Turns(tracked, queue, n))
    ensures forall x :: x in Turns(tracked, queue, n) ==> x in queue
    ensures forall x :: x in queue && x in tracked ==> x in Turns(tracked, queue, n)
  {
    var a, b := queue[..n], queue[n..];
    assert queue == a + b;
    KeptSound(tracked, a);
    DistinctRear(a, b, Kept(tracked, a));
    assert forall x :: x in queue <==> x in a || x in b;
  }

  lemma TickedSound(c: Core, queue: seq<int>)
    requires QueueSound(c) && Turned(c.pollSet, c.pollQueue, queue)
    ensures QueueSound(c.(pollQueue := queue))
  {
    var n: nat :| n <= |c.pollQueue| && queue == Turns(c.pollSet, c.pollQueue, n);
    TurnsSound(c.pollSet, c.pollQueue, n);
  }

  lemma BoundSound(c: Core, chat: int, group: int, st: GroupState, track: bool)
    requires QueueSound(c) && (chat in c.chatGroup ==> c.chatGroup[chat] == group)
    requires track ==> group !in c.groups && chat !in c.pollSet
    ensures QueueSound(BoundCore(c, chat, group, st, track))
  {
    var c' := BoundCore(c, chat, group, st, track);
    if track {
      assert chat !in c.pollQueue;
      assert c'.pollQueue == c.pollQueue + [chat];
    }
  }

  /** Effects that leave the queue alone only add known groups and drop tracked chats. */
  lemma QueueUntouched(c: Core, c': Core)
    requires QueueSound(c) && c'.pollQueue == c.pollQueue && c'.chatGroup == c.chatGroup
    requires c.groups.Keys <= c'.groups.Keys && c'.pollSet <= c.pollSet
    ensures QueueSound(c')
  {
  }

  lemma {:induction false} QueueSoundKept(v: View, f: Effect)
    requires QueueSound(v.core) && Possible(v, f)
    ensures QueueSound(After(v, f).core)
  {
    if f.Ticked? {
      TickedSound(v.core, f.queue);
    } else if f.Bound? {
      BoundSound(v.core, f.chat, f.group, f.st, f.track);
    } else if TouchesReplies(f) {
      RepliesKeepCore(v, f);
      QueueUntouched(v.core, After(v, f).core);
    } else {
      QueueUntouched(v.core, After(v, f).core);
    }
  }

  // ---------------------------------------------------------------- reply links

  /** The handlers that wait for the replied message of p, a reply and its target. */
  function FetchIds(waiting: map<nat, Cont>, p: (Key, Key)): set<nat> {
    set id | id in waiting && waiting[id].FetchReply? && (waiting[id].src, waiting[id].target) == p
  }

  /** Every reply message handled has been linked or waits for one fetch. */
  ghost predicate LinkedOnce(v: View) {
    forall p: (Key, Key) :: multiset(v.core.replies)[p] == v.links[p] + |FetchIds(v.waiting, p)|
  }

  lemma FetchIdsUpdate(waiting: map<nat, Cont>, id: nat, c: Cont, p: (Key, Key))
    requires id !in waiting
    ensures FetchIds(waiting[id := c], p)
         == FetchIds(waiting, p) + if c.FetchReply? && (c.src, c.target) == p then {id} else {}
  {
  }

  lemma FetchIdsRemove(waiting: map<nat, Cont>, id: nat, p: (Key, Key))
    requires id in waiting
    ensures var c := waiting[id];
      |FetchIds(waiting - {id}, p)| == |FetchIds(waiting, p)| - if c.FetchReply? && (c.src, c.target) == p then 1 else 0
  {
    assert FetchIds(waiting - {id}, p) == FetchIds(waiting, p) - {id};
  }

  lemma WalkLinked(v: View, w: Walk, v': View)
    requires LinkedOnce(v) && (w.Fetching? ==> w.id !in v.waiting) && v' == AfterWalk(v, w)
    ensures LinkedOnce(v')
  {
    if !w.NoReply? {
      var pair := (w.src, w.target);
      assert multiset(v.core.replies + [pair]) == multiset(v.core.replies) + multiset{pair};
      forall p: (Key, Key)
        ensures multiset(v.core.replies + [pair])[p] == v'.links[p] + |FetchIds(v'.waiting, p)|
      {
        if w.Fetching? {
          FetchIdsUpdate(v.waiting, w.id, FetchReply(w.src, w.target, w.depth, w.root), p);
          assert w.id !in FetchIds(v.waiting, p);
        }
      }
    }
  }

  lemma LinkClosedLinked(v: View, id: nat)
    requires LinkedOnce(v) && IsFetch(v, id)
    ensures LinkedOnce(LinkClosed(v, id))
  {
    forall p: (Key, Key)
      ensures multiset(v.core.replies)[p] == LinkClosed(v, id).links[p] + |FetchIds(LinkClosed(v, id).waiting, p)|
    {
      FetchIdsRemove(v.waiting, id, p);
    }
  }

  /** The same fetches are outstanding. */
  ghost predicate SameFetches(v: View, v': View) {
    forall id :: (IsFetch(v, id) || IsFetch(v', id))
      ==> id in v.waiting && id in v'.waiting && v'.waiting[id] == v.waiting[id]
  }

  lemma AlarmsKeepFetches(v: View, f: Effect)
    requires Possible(v, f) && !TouchesReplies(f)
    ensures SameFetches(v, After(v, f))
  {
    OtherEffects(v, f);
  }

  lemma SameFetchesLinked(v: View, v': View)
    requires LinkedOnce(v) && v'.links == v.links && v'.core.replies == v.core.replies && SameFetches(v, v')
    ensures LinkedOnce(v')
  {
    forall p: (Key, Key)
      ensures multiset(v'.core.replies)[p] == v'.links[p] + |FetchIds(v'.waiting, p)|
    {
      forall id
        ensures id in FetchIds(v'.waiting, p) <==> id in FetchIds(v.waiting, p)
      {
        assert IsFetch(v', id) ==> id in v.waiting;
        assert IsFetch(v, id) ==> id in v'.waiting;
      }
      assert FetchIds(v'.waiting, p) == FetchIds(v.waiting, p);
    }
  }

  lemma TopLinked(v: View, w: Walk)
    requires LinkedOnce(v) && (w.Fetching? ==> w.id !in v.waiting)
    ensures LinkedOnce(After(v, Top(w)))
  {
    assert LinkedOnce(Rooted(v));
    WalkLinked(Rooted(v), w, After(v, Top(w)));
  }

  lemma ContinuedLinked(v: View, fetch: nat, w: Walk)
    requires LinkedOnce(v) && IsFetch(v, fetch) && (w.Fetching? ==> w.id !in LinkClosed(v, fetch).waiting)
    ensures LinkedOnce(After(v, Continued(fetch, w)))
  {
    var v1 := Remembered(LinkClosed(v, fetch), v.waiting[fetch].target);
    LinkClosedLinked(v, fetch);
    WalkLinked(v1, w, After(v, Continued(fetch, w)));
  }

  lemma LinkedOnceKept(v: View, f: Effect)
    requires LinkedOnce(v) && Possible(v, f)
    ensures LinkedOnce(After(v, f))
  {
    if f.Top? {
      TopLinked(v, f.w);
    } else if f.FetchFailed? {
      LinkClosedLinked(v, f.fetch);
    } else if f.Continued? {
      ContinuedLinked(v, f.fetch, f.w);
    } else {
      OtherEffects(v, f);
      AlarmsKeepFetches(v, f);
      SameFetchesLinked(v, After(v, f));
    }
  }

  // ---------------------------------------------------------------- length of a walk

  /** How many fetches a top-level message has caused. */
  function FetchCount(fetches: seq<(nat, nat)>, root: nat): nat {
    if fetches == [] then 0
    else FetchCount(fetches[..|fetches| - 1], root) + if fetches[|fetches| - 1].0 == root then 1 else 0
  }

  lemma FetchCountSnoc(fetches: seq<(nat, nat)>, root: nat, depth: nat, r: nat)
    ensures FetchCount(fetches + [(root, depth)], r) == FetchCount(fetches, r) + if root == r then 1 else 0
  {
    assert (fetches + [(root, depth)])[..|fetches|] == fetches;
  }

  /** A root has at most one outstanding fetch, as deep as its fetches are many, and at most 128 fetches. */
  ghost predicate WalksBounded(v: View) {
    && (forall id :: IsFetch(v, id) ==>
          var c := v.waiting[id];
          c.root < v.core.roots && c.depth < MAX_REPLY_DEPTH && FetchCount(v.fetches, c.root) == c.depth + 1)
    && (forall a, b :: IsFetch(v, a) && IsFetch(v, b) && a != b ==> v.waiting[a].root != v.waiting[b].root)
    && (forall r: nat :: FetchCount(v.fetches, r) <= MAX_REPLY_DEPTH)
    && (forall r: nat :: r >= v.core.roots ==> FetchCount(v.fetches, r) == 0)
  }

  lemma FetchBounded(v: View, v': View, id: nat, c: Cont)
    requires WalksBounded(v) && id !in v.waiting && c.FetchReply? && c.depth < MAX_REPLY_DEPTH && c.root < v.core.roots
    requires FetchCount(v.fetches, c.root) == c.depth
    requires forall a :: IsFetch(v, a) ==> v.waiting[a].root != c.root
    requires v'.waiting == v.waiting[id := c] && v'.fetches == v.fetches + [(c.root, c.depth)]
      && v'.core.roots == v.core.roots
    ensures WalksBounded(v')
  {
    forall r: nat
      ensures FetchCount(v'.fetches, r) == FetchCount(v.fetches, r) + if c.root == r then 1 else 0
    {
      FetchCountSnoc(v.fetches, c.root, c.depth, r);
    }
    assert forall a :: IsFetch(v', a) <==> IsFetch(v, a) || a == id;
  }

  /** A walk goes on from a root that has no outstanding fetch. */
  lemma WalkBounded(v: View, w: Walk, depth: nat, root: nat)
    requires WalksBounded(v) && WalkPossible(v, w, depth, root) && root < v.core.roots
    requires FetchCount(v.fetches, root) == depth
    requires forall id :: IsFetch(v, id) ==> v.waiting[id].root != root
    ensures WalksBounded(AfterWalk(v, w))
  {
    if w.Fetching? {
      FetchBounded(v, AfterWalk(v, w), w.id, FetchReply(w.src, w.target, depth, root));
    } else {
      SameFetchesBounded(v, AfterWalk(v, w));
    }
  }

  lemma LinkClosedBounded(v: View, id: nat)
    requires WalksBounded(v) && IsFetch(v, id)
    ensures WalksBounded(LinkClosed(v, id))
    ensures forall a :: IsFetch(LinkClosed(v, id), a) ==> v.waiting[a].root != v.waiting[id].root
  {
    assert forall a :: IsFetch(LinkClosed(v, id), a) <==> IsFetch(v, a) && a != id;
  }

  lemma {:induction false} WalksBoundedKept(v: View, f: Effect)
    requires WalksBounded(v) && Possible(v, f)
    ensures WalksBounded(After(v, f))
  {
    if f.Top? {
      var v1 := Rooted(v);
      assert forall id :: IsFetch(v1, id) <==> IsFetch(v, id);
      WalkBounded(v1, f.w, 0, v.core.roots);
    } else if f.FetchFailed? {
      LinkClosedBounded(v, f.fetch);
    } else if f.Continued? {
      var c := v.waiting[f.fetch];
      var v1 := Remembered(LinkClosed(v, f.fetch), c.target);
      LinkClosedBounded(v, f.fetch);
      assert forall id :: IsFetch(v1, id) <==> IsFetch(LinkClosed(v, f.fetch), id);
      WalkBounded(v1, f.w, c.depth + 1, c.root);
    } else {
      OtherEffects(v, f);
      AlarmsKeepFetches(v, f);
      SameFetchesBounded(v, After(v, f));
    }
  }

  lemma SameFetchesBounded(v: View, v': View)
    requires WalksBounded(v) && v'.fetches == v.fetches && v'.core.roots == v.core.roots && SameFetches(v, v')
    ensures WalksBounded(v')
  {
    assert forall id :: IsFetch(v', id) <==> IsFetch(v, id);
  }

  function Without(fetches: seq<(nat, nat)>, root: nat): seq<(nat, nat)> {
    if fetches == [] then []
    else
      Without(fetches[..|fetches| - 1], root)
      + if fetches[|fetches| - 1].0 == root then [] else [fetches[|fetches| - 1]]
  }

  lemma {:induction false} WithoutCounts(fetches: seq<(nat, nat)>, root: nat, r: nat)
    ensures |fetches| == |Without(fetches, root)| + FetchCount(fetches, root)
    ensures FetchCount(Without(fetches, root), r) == if r == root then 0 else FetchCount(fetches, r)
  {
    if fetches != [] {
      var front, last := fetches[..|fetches| - 1], fetches[|fetches| - 1];
      WithoutCounts(front, root, r);
      if last.0 != root {
        FetchCountSnoc(Without(front, root), last.0, last.1, r);
      } else {
        assert Without(fetches, root) == Without(front, root);
      }
    }
  }

  lemma {:induction false} TotalFetches(fetches: seq<(nat, nat)>, roots: nat)
    requires forall r: nat :: FetchCount(fetches, r) <= MAX_REPLY_DEPTH
    requires forall r: nat :: r >= roots ==> FetchCount(fetches, r) == 0
    ensures |fetches| <= MAX_REPLY_DEPTH * roots
    decreases roots
  {
    if roots == 0 {
      if fetches != [] {
        assert FetchCount(fetches, fetches[|fetches| - 1].0) > 0;
      }
    } else {
      var rest := Without(fetches, roots - 1);
      forall r: nat
        ensures |fetches| == |rest| + FetchCount(fetches, roots - 1)
        ensures FetchCount(rest, r) == if r == roots - 1 then 0 else FetchCount(fetches, r)
      {
        WithoutCounts(fetches, roots - 1, r);
      }
      assert FetchCount(rest, 0) <= MAX_REPLY_DEPTH;
      TotalFetches(rest, roots - 1);
    }
  }

  // ---------------------------------------------------------------- every run

  ghost predicate Invariant(v: View) {
    OneAlarm(v) && QueueSound(v.core) && LinkedOnce(v) && WalksBounded(v) && |v.core.resolved| <= REPLY_DEDUP_CAP
  }

  lemma WithOneMore(resolved: set<Key>, target: Key)
    ensures |resolved + {target}| <= |resolved| + 1
  {
  }

  lemma WalkKeepsResolved(v: View, w: Walk)
    ensures AfterWalk(v, w).core.resolved == v.core.resolved
  {
  }

  lemma {:induction false} DedupCapKept(v: View, f: Effect)
    requires |v.core.resolved| <= REPLY_DEDUP_CAP && Possible(v, f)
    ensures |After(v, f).core.resolved| <= REPLY_DEDUP_CAP
  {
    if f.Continued? {
      var v1 := Remembered(LinkClosed(v, f.fetch), v.waiting[f.fetch].target);
      WithOneMore(if |v.core.resolved| >= REPLY_DEDUP_CAP then {} else v.core.resolved, v.waiting[f.fetch].target);
      WalkKeepsResolved(v1, f.w);
    } else if f.Top? {
      WalkKeepsResolved(Rooted(v), f.w);
    } else if !f.FetchFailed? {
      OtherEffects(v, f);
    }
  }

  lemma InvariantKept(v: View, f: Effect)
    requires Invariant(v) && Possible(v, f)
    ensures Invariant(After(v, f))
  {
    OneAlarmKept(v, f);
    QueueSoundKept(v, f);
    LinkedOnceKept(v, f);
    WalksBoundedKept(v, f);
    DedupCapKept(v, f);
  }

  lemma StartSound(pollEnabled: bool, batch: nat)
    ensures Fresh(Start(pollEnabled, batch)) && Invariant(ViewOf(Start(pollEnabled, batch)))
  {
    var s := Start(pollEnabled, batch);
    assert s.sent[..0] == [];
    assert forall p :: FetchIds(map[], p) == {};
  }

  lemma {:induction false} FrontPlausible(s: State, events: seq<Event>)
    requires events != [] && PlausibleRun(s, events)
    ensures PlausibleRun(s, events[..|events| - 1])
    ensures Plausible(Run(s, events[..|events| - 1]), events[|events| - 1])
  {
    var front := events[..|events| - 1];
    assert forall i :: 0 <= i < |front| ==> front[..i] == events[..i];
  }

  lemma {:induction false} InvariantOnAnyRun(s: State, events: seq<Event>)
    requires Fresh(s) && Invariant(ViewOf(s)) && PlausibleRun(s, events)
    ensures Fresh(Run(s, events)) && Invariant(ViewOf(Run(s, events)))
  {
    if events != [] {
      var front, e := events[..|events| - 1], events[|events| - 1];
      FrontPlausible(s, events);
      InvariantOnAnyRun(s, front);
      var v := ViewOf(Run(s, front));
      StepMoves(Run(s, front), e);
      var f :| Possible(v, f) && ViewOf(Run(s, events)) == After(v, f);
      InvariantKept(v, f);
    }
  }

  function AlarmIds(s: State): set<nat> {
    set id | id in s.handlers && s.handlers[id].Alarm?
  }

  /**
   At most one admin alarm is outstanding on any run, and exactly one while polling has started and
   the client is neither stopped nor closing, whatever logins and responses come in between.
   */
  lemma {:induction false} OneAlarmOnAnyRun(pollEnabled: bool, batch: nat, events: seq<Event>)
    requires PlausibleRun(Start(pollEnabled, batch), events)
    ensures var s := Run(Start(pollEnabled, batch), events);
      && |AlarmIds(s)| <= 1
      && (s.core.pollStarted && !s.core.stopped && !s.core.closing ==> |AlarmIds(s)| == 1)
  {
    StartSound(pollEnabled, batch);
    InvariantOnAnyRun(Start(pollEnabled, batch), events);
    var s := Run(Start(pollEnabled, batch), events);
    assert forall id :: id in AlarmIds(s) <==> IsAlarm(ViewOf(s), id);
    if id :| id in AlarmIds(s) {
      assert AlarmIds(s) == {id};
    }
  }

  /** On any run the poll queue is duplicate-free and both lookups of poll_admin_batch succeed. */
  lemma {:induction false} QueueOnAnyRun(pollEnabled: bool, batch: nat, events: seq<Event>)
    requires PlausibleRun(Start(pollEnabled, batch), events)
    ensures var s := Run(Start(pollEnabled, batch), events);
      && Distinct(s.core.pollQueue)
      && (forall chat <- s.core.pollSet :: chat in s.core.pollQueue)
      && Known(s.core, s.core.pollQueue)
  {
    StartSound(pollEnabled, batch);
    InvariantOnAnyRun(Start(pollEnabled, batch), events);
  }

  /**
   The reply walk links exactly once and ends.  On any run, cyclic reply data and failed fetches
   included: of each reply, as many messages were handled as links emitted plus fetches outstanding;
   a top-level message causes at most 128 fetches; and the dedup set respects its cap.
   */
  lemma {:induction false} RepliesOnAnyRun(pollEnabled: bool, batch: nat, events: seq<Event>, p: (Key, Key), root: nat)
    requires PlausibleRun(Start(pollEnabled, batch), events)
    ensures var s := Run(Start(pollEnabled, batch), events);
      && multiset(s.core.replies)[p] == LinksIn(s.script)[p] + |FetchIds(s.handlers, p)|
      && FetchCount(FetchesIn(s.sent), root) <= 128
      && |FetchesIn(s.sent)| <= 128 * s.core.roots
      && |s.core.resolved| <= 1000000
  {
    var s := Run(Start(pollEnabled, batch), events);
    StartSound(pollEnabled, batch);
    InvariantOnAnyRun(Start(pollEnabled, batch), events);
    assert FetchIds(s.handlers, p) == FetchIds(ViewOf(s).waiting, p);
    TotalFetches(FetchesIn(s.sent), s.core.roots);
  }
}
