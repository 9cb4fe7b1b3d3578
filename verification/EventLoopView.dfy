/**
 The protocol part of the event loop: alarms, the admin poll queue and the reply walk, without the
 caches, downloads and entity saves around them.  Every event of the loop has one of a few effects on
 this part (module EventLoopEffects); the invariants of the loop are proved on the effects.
 */
module EventLoopView {
  import opened Common
  import opened Models
  import opened EventLoop

  datatype View = View(
    core: Core,
    waiting: map<nat, Cont>,                     // the alarms and reply fetches in handlers_
    links: multiset<(Key, Key)>,                 // reply links emitted
    fetches: seq<(nat, nat)>)                    // root and depth of each fetch of a replied message

  predicate Watched(c: Cont) {
    c.Alarm? || c.FetchReply?
  }

  function Waiting(handlers: map<nat, Cont>): map<nat, Cont> {
    map id | id in handlers && Watched(handlers[id]) :: handlers[id]
  }

  function FetchesIn(sent: seq<Query>): seq<(nat, nat)> {
    if sent == [] then []
    else
      var q := sent[|sent| - 1];
      FetchesIn(sent[..|sent| - 1]) + if q.GetReplied? then [(q.root, q.depth)] else []
  }

  function KeyOf(row: Entity): Key {
    match row
    case MessageRow(chat, id) => (chat, id)
    case _ => (0, 0)
  }

  function LinksIn(script: seq<Emission>): multiset<(Key, Key)> {
    if script == [] then multiset{}
    else
      var e := script[|script| - 1];
      LinksIn(script[..|script| - 1])
      + if e.ToSerial? && e.job.LinkReply? then multiset{(KeyOf(e.job.src), KeyOf(e.job.target))} else multiset{}
  }

  function ViewOf(s: State): View {
    View(s.core, Waiting(s.handlers), LinksIn(s.script), FetchesIn(s.sent))
  }

  /** Query ids only grow. */
  ghost predicate Fresh(s: State) {
    forall id <- s.handlers :: id <= s.queryId
  }

  // ---------------------------------------------------------------- effects

  /** What resolving the reply of one message does. */
  datatype Walk =
    | NoReply
    | Linked(src: Key, target: Key)
    | Fetching(id: nat, src: Key, target: Key, depth: nat, root: nat)

  datatype Effect =
    | Nothing
    | Authorize(on: bool)
    | Started(id: nat)                           // first authorization: the first alarm
    | Stopped
    | Shut
    | Ended(alarm: nat)                          // an alarm rings and none is armed again
    | Ticked(alarm: nat, id: nat, queue: seq<int>)
    | Learned(group: int, st: GroupState)
    | Bound(chat: int, group: int, st: GroupState, track: bool)
    | Denied(chat: int)
    | ListArrived(chat: int)
    | Top(w: Walk)
    | FetchFailed(fetch: nat)
    | Continued(fetch: nat, w: Walk)

  function AfterWalk(v: View, w: Walk): View {
    match w
    case NoReply => v
    case Linked(src, target) => Replied(v, src, target).(links := v.links + multiset{(src, target)})
    case Fetching(id, src, target, depth, root) =>
      Replied(v, src, target).(
        fetches := v.fetches + [(root, depth)], waiting := v.waiting[id := FetchReply(src, target, depth, root)])
  }

  function Replied(v: View, src: Key, target: Key): View {
    v.(core := v.core.(replies := v.core.replies + [(src, target)]))
  }

  predicate WalkPossible(v: View, w: Walk, depth: nat, root: nat) {
    w.Fetching? ==> w.id !in v.waiting && w.depth == depth < MAX_REPLY_DEPTH && w.root == root
  }

  predicate IsAlarm(v: View, id: nat) {
    id in v.waiting && v.waiting[id].Alarm?
  }

  predicate IsFetch(v: View, id: nat) {
    id in v.waiting && v.waiting[id].FetchReply?
  }

  /** The outstanding fetch id is answered and its link is recorded. */
  function LinkClosed(v: View, id: nat): View {
    if IsFetch(v, id) then
      v.(waiting := v.waiting - {id}, links := v.links + multiset{(v.waiting[id].src, v.waiting[id].target)})
    else v
  }

  function Rooted(v: View): View {
    v.(core := v.core.(roots := v.core.roots + 1))
  }

  /** mark_reply_resolved */
  function Remembered(v: View, target: Key): View {
    var kept := if |v.core.resolved| >= REPLY_DEDUP_CAP then {} else v.core.resolved;
    v.(core := v.core.(resolved := kept + {target}))
  }

  ghost predicate Possible(v: View, f: Effect) {
    match f
    case Started(id) => id !in v.waiting && !v.core.pollStarted
    case Ended(alarm) => IsAlarm(v, alarm) && (v.core.stopped || v.core.closing)
    case Ticked(alarm, id, queue) =>
      IsAlarm(v, alarm) && id !in v.waiting - {alarm} && Turned(v.core.pollSet, v.core.pollQueue, queue)
    case Bound(chat, group, _, track) =>
      && (chat in v.core.chatGroup ==> v.core.chatGroup[chat] == group)
      && (track ==> group !in v.core.groups && chat !in v.core.pollSet)
    case Top(w) => WalkPossible(v, w, 0, v.core.roots)
    case FetchFailed(fetch) => IsFetch(v, fetch)
    case Continued(fetch, w) =>
      IsFetch(v, fetch) && WalkPossible(LinkClosed(v, fetch), w, v.waiting[fetch].depth + 1, v.waiting[fetch].root)
    case _ => true
  }

  function BoundCore(c: Core, chat: int, group: int, st: GroupState, track: bool): Core {
    var c1 := c.(groups := c.groups[group := st], chatGroup := c.chatGroup[chat := group]);
    if track then c1.(pollSet := c1.pollSet + {chat}, pollQueue := c1.pollQueue + [chat]) else c1
  }

  function After(v: View, f: Effect): View {
    match f
    case Nothing => v
    case Authorize(on) => v.(core := v.core.(authorized := on))
    case Started(id) => v.(core := v.core.(authorized := true, pollStarted := true), waiting := v.waiting[id := Alarm])
    case Stopped => v.(core := v.core.(authorized := false, stopped := true))
    case Shut => v.(core := v.core.(closing := true))
    case Ended(alarm) => v.(waiting := v.waiting - {alarm})
    case Ticked(alarm, id, queue) =>
      v.(core := v.core.(pollQueue := queue), waiting := (v.waiting - {alarm})[id := Alarm])
    case Learned(group, st) => v.(core := v.core.(groups := v.core.groups[group := st]))
    case Bound(chat, group, st, track) => v.(core := BoundCore(v.core, chat, group, st, track))
    case Denied(chat) => v.(core := MissCounted(v.core, chat))
    case ListArrived(chat) => v.(core := v.core.(pollMiss := v.core.pollMiss - {chat}))
    case Top(w) => AfterWalk(Rooted(v), w)
    case FetchFailed(fetch) => LinkClosed(v, fetch)
    case Continued(fetch, w) =>
      if IsFetch(v, fetch) then AfterWalk(Remembered(LinkClosed(v, fetch), v.waiting[fetch].target), w) else v
  }

  /** Some effect leads from v to v'. */
  ghost predicate Moves(v: View, v': View) {
    exists f :: Possible(v, f) && v' == After(v, f)
  }

  /** An effect that neither answers an alarm nor a request for administrators. */
  predicate Plain(f: Effect) {
    !f.Ended? && !f.Ticked? && !f.Denied? && !f.ListArrived?
  }

  ghost predicate PlainMoves(v: View, v': View) {
    exists f :: Possible(v, f) && v' == After(v, f) && Plain(f)
  }

  /** What the answer to a request for the administrators of a chat does. */
  function AdminEffect(chat: int, o: Object): Effect {
    if o.MembersObject? then ListArrived(chat) else if IsDenial(o) then Denied(chat) else Nothing
  }

  // ---------------------------------------------------------------- turning the poll queue

  /** The queue after looking at its first n chats: evicted ones are dropped, the others put at the rear. */
  function Turns(tracked: set<int>, queue: seq<int>, n: nat): seq<int>
    requires n <= |queue|
  {
    queue[n..] + Kept(tracked, queue[..n])
  }

  function Kept(tracked: set<int>, queue: seq<int>): seq<int> {
    if queue == [] then []
    else Kept(tracked, queue[..|queue| - 1]) + if queue[|queue| - 1] in tracked then [queue[|queue| - 1]] else []
  }

  ghost predicate Turned(tracked: set<int>, queue: seq<int>, result: seq<int>) {
    exists n: nat :: n <= |queue| && result == Turns(tracked, queue, n)
  }

  lemma {:induction false} KeptCons(tracked: set<int>, queue: seq<int>)
    requires queue != []
    ensures Kept(tracked, queue) == (if queue[0] in tracked then [queue[0]] else []) + Kept(tracked, queue[1..])
  {
    if |queue| > 1 {
      KeptCons(tracked, queue[..|queue| - 1]);
      assert queue[..|queue| - 1][1..] == queue[1..][..|queue[1..]| - 1];
    }
  }

  lemma TurnsCons(tracked: set<int>, queue: seq<int>, n: nat)
    requires n < |queue|
    ensures n <= |TurnOnce(tracked, queue)|
    ensures Turns(tracked, TurnOnce(tracked, queue), n) == Turns(tracked, queue, n + 1)
  {
    var rest := queue[1..];
    var once := TurnOnce(tracked, queue);
    KeptCons(tracked, queue[..n + 1]);
    assert queue[..n + 1][1..] == rest[..n] == once[..n];
    assert queue[n + 1..] == rest[n..];
    assert once[n..] == rest[n..] + if queue[0] in tracked then [queue[0]] else [];
  }
}
