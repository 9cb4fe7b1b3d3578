/**
 Every event of the loop has one of the effects of module EventLoopView.
 */
module EventLoopEffects {
  import opened Common
  import opened Models
  import opened EventLoop
  import opened EventLoopView

  /** s' differs from s outside the protocol part only. */
  ghost predicate Beside(s: State, s': State) {
    Fresh(s) ==> Fresh(s') && ViewOf(s') == ViewOf(s)
  }

  // ---------------------------------------------------------------- queries and jobs

  lemma SendBeside(s: State, q: Query, cont: Option<Cont>)
    requires !q.GetReplied? && (cont.Some? ==> !Watched(cont.value))
    ensures Beside(s, SendQuery(s, q, cont))
  {
    var s' := SendQuery(s, q, cont);
    assert s'.sent[..|s'.sent| - 1] == s.sent;
    if Fresh(s) {
      assert Waiting(s'.handlers) == Waiting(s.handlers);
    }
  }

  lemma EmitBeside(s: State, e: Emission)
    requires e.ToSerial? ==> !e.job.LinkReply?
    ensures Beside(s, Emit(s, e))
  {
    assert Emit(s, e).script[..|s.script|] == s.script;
  }

  lemma EmitLink(s: State, src: Key, target: Key, reason: LinkReason)
    ensures var s' := Emit(s, LinkJob(src, target, reason));
      s'.handlers == s.handlers && ViewOf(s') == ViewOf(s).(links := ViewOf(s).links + multiset{(src, target)})
  {
    assert (s.script + [LinkJob(src, target, reason)])[..|s.script|] == s.script;
  }

  lemma EmitGroupBeside(s: State, group: int)
    ensures Beside(s, EmitGroup(s, group))
  {
    if group in s.core.groups && s.core.groups[group].seen {
      EmitBeside(s, ToSerial(Save(GroupRow(s.core.groups[group].chat))));
    }
  }

  // ---------------------------------------------------------------- entities and files

  lemma {:induction false} EnsureUserBeside(s: State, user: int)
    ensures Beside(s, EnsureUser(s, user))
  {
    if user != 0 {
      if user in s.users {
        EmitBeside(s, ToSerial(Save(UserRow(user))));
      } else {
        SendBeside(s, GetUser(user), Some(FetchUser));
      }
    }
  }

  lemma {:induction false} EnsureChatBeside(s: State, chat: int)
    ensures Beside(s, EnsureChat(s, chat))
  {
    if chat != 0 && !IsPrivate(chat) {
      if chat in s.core.chatGroup {
        EmitGroupBeside(s, s.core.chatGroup[chat]);
      } else {
        SendBeside(s, GetChat(chat), Some(FetchChat));
      }
    }
  }

  lemma {:induction false} ResolveOriginBeside(s: State, m: TdMessage)
    ensures Beside(s, ResolveOrigin(s, m))
  {
    var s1 := if m.originUser.Some? then EnsureUser(s, m.originUser.value) else s;
    if m.originUser.Some? {
      EnsureUserBeside(s, m.originUser.value);
    }
    if m.originChat.Some? {
      EnsureChatBeside(s1, m.originChat.value);
    }
  }

  lemma {:induction false} EnsureEntitiesBeside(s: State, m: TdMessage)
    ensures Beside(s, EnsureEntities(s, m))
  {
    var s1 := if IsPrivate(m.chat) then EnsureUser(s, m.chat) else EnsureChat(s, m.chat);
    if IsPrivate(m.chat) {
      EnsureUserBeside(s, m.chat);
    } else {
      EnsureChatBeside(s, m.chat);
    }
    match m.sender {
      case NoSender =>
      case UserSender(user) => EnsureUserBeside(s1, user);
      case ChatSender(chat) => EnsureChatBeside(s1, chat);
    }
  }

  lemma DownloadMessageFileBeside(s: State, m: TdMessage)
    ensures Beside(s, DownloadMessageFile(s, m))
  {
    if m.file.Some? {
      var f := m.file.value;
      if f.done {
        EmitBeside(s, ToFiles(StoreFile(m.Row())));
      } else {
        SendBeside(WithMessageFiles(s, s.pendingMessageFile[f.id := m.Key()]), Download(f.id), None);
      }
    }
  }

  lemma {:induction false} DownloadGroupPhotoBeside(s: State, chat: int, photo: Option<File>)
    ensures Beside(s, DownloadGroupPhoto(s, chat, photo))
  {
    if photo.Some? {
      var f := photo.value;
      if f.done {
        EmitBeside(s, ToFiles(StoreFile(GroupRow(chat))));
      } else {
        SendBeside(WithGroupPhotos(s, s.pendingGroupPhoto[f.id := chat]), Download(f.id), None);
      }
    }
  }

  lemma {:induction false} FileArrivedBeside(s: State, f: File)
    ensures Beside(s, FileArrived(s, f))
  {
    if f.done {
      if f.id in s.pendingPhoto {
        EmitBeside(WithPhotos(s, s.pendingPhoto - {f.id}), ToFiles(StoreFile(UserRow(s.pendingPhoto[f.id]))));
      } else if f.id in s.pendingGroupPhoto {
        EmitBeside(WithGroupPhotos(s, s.pendingGroupPhoto - {f.id}),
          ToFiles(StoreFile(GroupRow(s.pendingGroupPhoto[f.id]))));
      } else if f.id in s.pendingMessageFile {
        var key := s.pendingMessageFile[f.id];
        EmitBeside(WithMessageFiles(s, s.pendingMessageFile - {f.id}), ToFiles(StoreFile(MessageRow(key.0, key.1))));
      }
    }
  }

  lemma UserArrivedBeside(s: State, u: TdUser)
    ensures Beside(s, UserArrived(s, u))
  {
    var s1 := Emit(s, ToSerial(Save(UserRow(u.id))));
    EmitBeside(s, ToSerial(Save(UserRow(u.id))));
    if u.photo.Some? {
      var f := u.photo.value;
      if f.done {
        EmitBeside(s1, ToFiles(StoreFile(UserRow(u.id))));
      } else {
        SendBeside(WithPhotos(s1, s1.pendingPhoto[f.id := u.id]), Download(f.id), None);
      }
    }
  }

  lemma {:induction false} EmitDeletesBeside(s: State, chat: int, ids: seq<int>)
    ensures Beside(s, EmitDeletes(s, chat, ids))
  {
    if ids != [] {
      EmitDeletesBeside(s, chat, ids[..|ids| - 1]);
      EmitBeside(EmitDeletes(s, chat, ids[..|ids| - 1]), ToSerial(Delete(chat, ids[|ids| - 1])));
    }
  }

  lemma {:induction false} EnsureAdminsBeside(s: State, members: Members)
    ensures Beside(s, EnsureAdmins(s, members))
  {
    if members != [] {
      var front, m := members[..|members| - 1], members[|members| - 1];
      EnsureAdminsBeside(s, front);
      if m.Some? {
        EnsureUserBeside(EnsureAdmins(s, front), m.value.userId);
      }
    }
  }

  lemma EmitAdminsBeside(s: State, chat: int, members: Members)
    ensures Beside(s, EmitAdmins(s, chat, members))
  {
    EnsureAdminsBeside(s, members);
    if AdminsIn(members) != [] {
      EmitBeside(EnsureAdmins(s, members), ToSerial(SyncAdmins(chat, AdminsIn(members))));
    }
  }

  // ---------------------------------------------------------------- replies

  lemma SendFetch(s: State, src: Key, target: Key, depth: nat, root: nat)
    requires Fresh(s)
    ensures var id, s' := s.queryId + 1,
      SendQuery(s, GetReplied(target, depth, root), Some(FetchReply(src, target, depth, root)));
      && Fresh(s') && id !in Waiting(s.handlers)
      && ViewOf(s') == ViewOf(s).(fetches := ViewOf(s).fetches + [(root, depth)],
                                  waiting := ViewOf(s).waiting[id := FetchReply(src, target, depth, root)])
  {
    var c := FetchReply(src, target, depth, root);
    var s' := SendQuery(s, GetReplied(target, depth, root), Some(c));
    assert s'.sent[..|s.sent|] == s.sent;
    assert Waiting(s'.handlers) == Waiting(s.handlers)[s.queryId + 1 := c];
  }

  lemma LinkedNow(s: State, src: Key, target: Key, reason: LinkReason)
    requires Fresh(s)
    ensures var s' := Emit(WithReply(s, src, target), LinkJob(src, target, reason));
      Fresh(s') && ViewOf(s') == AfterWalk(ViewOf(s), Linked(src, target))
  {
    EmitLink(WithReply(s, src, target), src, target, reason);
  }

  /** The state in which the replied message is being fetched. */
  function FetchSent(s: State, src: Key, target: Key, depth: nat, root: nat): State {
    SendQuery(WithReply(s, src, target), GetReplied(target, depth, root), Some(FetchReply(src, target, depth, root)))
  }

  lemma FetchedFirst(s: State, src: Key, target: Key, depth: nat, root: nat)
    requires Fresh(s)
    ensures var s' := FetchSent(s, src, target, depth, root);
      && Fresh(s') && s.queryId + 1 !in Waiting(s.handlers)
      && ViewOf(s') == AfterWalk(ViewOf(s), Fetching(s.queryId + 1, src, target, depth, root))
  {
    SendFetch(WithReply(s, src, target), src, target, depth, root);
  }

  lemma ResolveReplyEffect(s: State, m: TdMessage, depth: nat, root: nat) returns (w: Walk)
    requires Fresh(s)
    ensures var s' := ResolveReply(s, m, depth, root);
      && Fresh(s') && WalkPossible(ViewOf(s), w, depth, root) && ViewOf(s') == AfterWalk(ViewOf(s), w)
  {
    if m.ReplyTarget().None? {
      return NoReply;
    }
    var src, target := m.Key(), m.ReplyTarget().value;
    if target in s.core.resolved {
      LinkedNow(s, src, target, AlreadySaved);
      w := Linked(src, target);
    } else if depth >= MAX_REPLY_DEPTH {
      LinkedNow(s, src, target, DepthCap);
      w := Linked(src, target);
    } else {
      FetchedFirst(s, src, target, depth, root);
      w := Fetching(s.queryId + 1, src, target, depth, root);
    }
  }

  lemma {:induction false} HandleMessageEffect(s: State, m: TdMessage, depth: nat, root: nat) returns (w: Walk)
    requires Fresh(s)
    ensures var s' := HandleMessage(s, m, depth, root);
      && Fresh(s') && WalkPossible(ViewOf(s), w, depth, root) && ViewOf(s') == AfterWalk(ViewOf(s), w)
  {
    var s1 := ResolveOrigin(s, m);
    var s2 := Emit(s1, ToSerial(Save(m.Row())));
    ResolveOriginBeside(s, m);
    EmitBeside(s1, ToSerial(Save(m.Row())));
    DownloadMessageFileBeside(s2, m);
    w := ResolveReplyEffect(DownloadMessageFile(s2, m), m, depth, root);
  }

  lemma TopMessageEffect(s: State, m: TdMessage) returns (w: Walk)
    requires Fresh(s)
    ensures var s' := HandleTopMessage(s, m);
      && Fresh(s') && WalkPossible(ViewOf(WithRoot(s)), w, 0, s.core.roots)
      && ViewOf(s') == AfterWalk(ViewOf(WithRoot(s)), w)
  {
    w := HandleMessageEffect(WithRoot(s), m, 0, s.core.roots);
  }

  lemma TopMoves(s: State, s': State, w: Walk)
    requires WalkPossible(ViewOf(WithRoot(s)), w, 0, s.core.roots) && ViewOf(s') == AfterWalk(ViewOf(WithRoot(s)), w)
    ensures PlainMoves(ViewOf(s), ViewOf(s'))
  {
    var v := ViewOf(s);
    assert ViewOf(WithRoot(s)) == Rooted(v);
    assert Possible(v, Top(w)) && After(v, Top(w)) == ViewOf(s') && Plain(Top(w));
  }

  /** The answered handler is gone from s; the link is emitted last, after the walk has gone on. */
  lemma {:induction false} FetchedEffect(s: State, src: Key, target: Key, depth: nat, root: nat, r: TdMessage)
    returns (w: Walk)
    requires Fresh(s)
    ensures var s' := ReplyFetched(s, src, target, depth, root, r);
      && Fresh(s') && WalkPossible(Remembered(ViewOf(s), target), w, depth + 1, root)
      && ViewOf(s') == WithLink(AfterWalk(Remembered(ViewOf(s), target), w), src, target)
  {
    var s2 := MarkResolved(s, target);
    var s3 := EnsureEntities(s2, r);
    var h := HandleMessage(s3, r, depth + 1, root);
    var v := Remembered(ViewOf(s), target);
    assert ViewOf(s2) == v;
    EnsureEntitiesBeside(s2, r);
    w := HandleMessageEffect(s3, r, depth + 1, root);
    LinkAfterWalk(v, h, Emit(h, LinkJob(src, target, Fetched)), src, target, w);
  }

  function WithLink(v: View, src: Key, target: Key): View {
    v.(links := v.links + multiset{(src, target)})
  }

  lemma LinkAfterWalk(v: View, s: State, s': State, src: Key, target: Key, w: Walk)
    requires Fresh(s) && ViewOf(s) == AfterWalk(v, w) && s' == Emit(s, LinkJob(src, target, Fetched))
    ensures Fresh(s') && ViewOf(s') == WithLink(AfterWalk(v, w), src, target)
  {
    EmitLink(s, src, target, Fetched);
  }

  lemma LinkClosedLast(v: View, id: nat, w: Walk)
    requires IsFetch(v, id)
    ensures var c := v.waiting[id];
      After(v, Continued(id, w))
      == WithLink(AfterWalk(Remembered(v.(waiting := v.waiting - {id}), c.target), w), c.src, c.target)
  {
  }

  lemma WaitingWithout(handlers: map<nat, Cont>, id: nat)
    ensures Waiting(handlers - {id}) == Waiting(handlers) - {id}
  {
  }

  lemma ReplyArrivedEffect(s: State, id: nat, o: Object)
    requires Fresh(s) && id in s.handlers && s.handlers[id].FetchReply?
    ensures var s' := ReplyArrived(WithHandlers(s, s.handlers - {id}), s.handlers[id], o);
      Fresh(s') && PlainMoves(ViewOf(s), ViewOf(s'))
  {
    var s1, c, v := WithHandlers(s, s.handlers - {id}), s.handlers[id], ViewOf(s);
    WaitingWithout(s.handlers, id);
    assert ViewOf(s1) == v.(waiting := v.waiting - {id});
    if o.MessageObject? {
      var w := FetchedEffect(s1, c.src, c.target, c.depth, c.root, o.m);
      LinkClosedLast(v, id, w);
      assert Possible(v, Continued(id, w));
    } else {
      EmitLink(s1, c.src, c.target, Unavailable);
      assert Possible(v, FetchFailed(id)) && After(v, FetchFailed(id)) == LinkClosed(v, id);
    }
  }

  // ---------------------------------------------------------------- administrators

  lemma RefreshBeside(s: State, chat: int)
    requires Pollable(s.core, chat)
    ensures Beside(s, Refresh(s, chat))
  {
    var group := s.core.chatGroup[chat];
    if s.core.groups[group].kind == BasicGroup {
      SendBeside(s, GetBasicGroupInfo(group), None);
    } else {
      SendBeside(s, GetMembers(group, chat), Some(FetchAdmins(chat)));
    }
  }

  lemma {:induction false} LookEffect(s: State)
    requires Fresh(s) && s.core.pollQueue != []
    ensures Fresh(Look(s)) && Look(s).core == s.core.(pollQueue := TurnOnce(s.core.pollSet, s.core.pollQueue))
    ensures Waiting(Look(s).handlers) == Waiting(s.handlers)
    ensures LinksIn(Look(s).script) == LinksIn(s.script) && FetchesIn(Look(s).sent) == FetchesIn(s.sent)
  {
    if IsHit(s) {
      RefreshBeside(WithQueue(s, TurnOnce(s.core.pollSet, s.core.pollQueue)), s.core.pollQueue[0]);
    }
  }

  /** The protocol part of s with the queue turned by n. */
  function TurnedView(s: State, n: nat): View
    requires n <= |s.core.pollQueue|
  {
    ViewOf(s).(core := s.core.(pollQueue := Turns(s.core.pollSet, s.core.pollQueue, n)))
  }

  lemma LookThenTurn(s: State, n: nat)
    requires Fresh(s) && n < |s.core.pollQueue|
    ensures n <= |Look(s).core.pollQueue| && TurnedView(Look(s), n) == TurnedView(s, n + 1)
  {
    LookEffect(s);
    TurnsCons(s.core.pollSet, s.core.pollQueue, n);
  }

  /** A tick turns the queue and nothing else of the protocol part. */
  lemma {:induction false} PollEffect(s: State, polled: nat, scan: nat) returns (n: nat)
    requires Fresh(s) && scan <= |s.core.pollQueue|
    ensures n <= scan && PollTurns(s, Poll(s, polled, scan), n)
    decreases scan
  {
    if polled < s.core.batch && scan > 0 {
      var polled' := if IsHit(s) then polled + 1 else polled;
      LookReady(s);
      n := PollEffect(Look(s), polled', scan - 1);
      LookThenTurns(s, Poll(Look(s), polled', scan - 1), n);
      n := n + 1;
    } else {
      n := 0;
      NoTurns(s);
    }
  }

  lemma LookReady(s: State)
    requires Fresh(s) && s.core.pollQueue != []
    ensures Fresh(Look(s)) && |Look(s).core.pollQueue| >= |s.core.pollQueue| - 1
  {
    LookEffect(s);
  }

  ghost predicate PollTurns(s: State, s': State, n: nat) {
    n <= |s.core.pollQueue| && Fresh(s') && ViewOf(s') == TurnedView(s, n)
  }

  lemma LookThenTurns(s: State, s': State, n: nat)
    requires Fresh(s) && n < |s.core.pollQueue| && PollTurns(Look(s), s', n)
    ensures PollTurns(s, s', n + 1)
  {
    LookThenTurn(s, n);
  }

  lemma NoTurns(s: State)
    requires Fresh(s)
    ensures PollTurns(s, s, 0)
  {
    assert Turns(s.core.pollSet, s.core.pollQueue, 0) == s.core.pollQueue;
  }

  lemma ArmAlarmEffect(s: State)
    requires Fresh(s)
    ensures Fresh(ArmAlarm(s)) && s.queryId + 1 !in Waiting(s.handlers)
    ensures ViewOf(ArmAlarm(s)) == ViewOf(s).(waiting := ViewOf(s).waiting[s.queryId + 1 := Alarm])
  {
    assert ArmAlarm(s).sent[..|s.sent|] == s.sent;
    assert Waiting(ArmAlarm(s).handlers) == Waiting(s.handlers)[s.queryId + 1 := Alarm];
  }

  /** s2 is the state after the tick: the alarm id is gone and the queue is turned by n. */
  lemma RearmMoves(v: View, id: nat, s2: State, n: nat)
    requires IsAlarm(v, id) && Fresh(s2) && n <= |v.core.pollQueue|
    requires ViewOf(s2)
      == v.(core := v.core.(pollQueue := Turns(v.core.pollSet, v.core.pollQueue, n)), waiting := v.waiting - {id})
    ensures Fresh(ArmAlarm(s2)) && Moves(v, ViewOf(ArmAlarm(s2)))
  {
    ArmAlarmEffect(s2);
    var f := Ticked(id, s2.queryId + 1, s2.core.pollQueue);
    assert Turned(v.core.pollSet, v.core.pollQueue, s2.core.pollQueue);
    assert Possible(v, f) && After(v, f) == ViewOf(ArmAlarm(s2));
  }

  lemma AlarmRangEffect(s: State, id: nat)
    requires Fresh(s) && id in s.handlers && s.handlers[id].Alarm?
    ensures var s' := AlarmRang(WithHandlers(s, s.handlers - {id}));
      Fresh(s') && Moves(ViewOf(s), ViewOf(s'))
  {
    var s1, v := WithHandlers(s, s.handlers - {id}), ViewOf(s);
    var queue := s.core.pollQueue;
    WaitingWithout(s.handlers, id);
    if s.core.stopped || s.core.closing {
      assert Possible(v, Ended(id)) && After(v, Ended(id)) == ViewOf(s1);
    } else if s.core.authorized {
      var n := PollEffect(s1, 0, |queue|);
      RearmMoves(v, id, Poll(s1, 0, |queue|), n);
    } else {
      assert Turns(s.core.pollSet, queue, 0) == queue;
      RearmMoves(v, id, s1, 0);
    }
  }

  lemma AdminsArrivedEffect(s: State, chat: int, o: Object)
    requires Fresh(s)
    ensures Fresh(AdminsArrived(s, chat, o))
      && ViewOf(AdminsArrived(s, chat, o)) == After(ViewOf(s), AdminEffect(chat, o))
  {
    if o.MembersObject? {
      var s1 := WithMisses(s, s.core.pollMiss - {chat});
      EmitAdminsBeside(s1, chat, o.members);
      assert After(ViewOf(s), ListArrived(chat)) == ViewOf(s1);
    } else if IsDenial(o) {
      assert After(ViewOf(s), Denied(chat)) == ViewOf(s.(core := MissCounted(s.core, chat)));
    }
  }

  // ---------------------------------------------------------------- groups

  lemma LearnedEffect(s: State, group: int, st: GroupState)
    requires Fresh(s)
    ensures var s' := EmitGroup(WithGroup(s, group, st), group);
      Fresh(s') && ViewOf(s') == After(ViewOf(s), Learned(group, st))
  {
    EmitGroupBeside(WithGroup(s, group, st), group);
  }

  lemma RequestGroupInfoBeside(s: State, kind: ChatKind)
    requires !kind.NotAGroup?
    ensures Beside(s, RequestGroupInfo(s, kind))
  {
    SendBeside(s, if kind.IsBasicGroup? then GetBasicGroupInfo(kind.group) else GetSupergroupInfo(kind.group), None);
  }

  lemma RecordChatEffect(s: State, chat: TdChat)
    requires Fresh(s) && !chat.kind.NotAGroup?
    ensures Fresh(RecordChat(s, chat))
    ensures ViewOf(RecordChat(s, chat))
         == ViewOf(s).(core := BoundCore(s.core, chat.id, chat.kind.group, StateOfChat(s, chat), false))
  {
    var group := chat.kind.group;
    var s1 := WithChat(WithGroup(s, group, StateOfChat(s, chat)), chat.id, group);
    var s2 := EmitGroup(s1, group);
    var s3 := RequestGroupInfo(s2, chat.kind);
    EmitGroupBeside(s1, group);
    RequestGroupInfoBeside(s2, chat.kind);
    DownloadGroupPhotoBeside(s3, chat.id, chat.photo);
  }

  lemma {:induction false} TrackEffect(s: State, chat: TdChat)
    requires Fresh(s) && !chat.kind.NotAGroup?
    ensures var s' := Track(s, chat);
      && Fresh(s')
      && ViewOf(s') == ViewOf(s).(core := s.core.(pollSet := s.core.pollSet + {chat.id},
                                                  pollQueue := s.core.pollQueue + [chat.id]))
  {
    if chat.kind.IsSupergroup? {
      SendBeside(WithQueue(WithPollSet(s, s.core.pollSet + {chat.id}), s.core.pollQueue + [chat.id]),
                 GetMembers(chat.kind.group, chat.id), Some(FetchAdmins(chat.id)));
    }
  }

  lemma ChatArrivedEffect(s: State, chat: TdChat, fromList: bool)
    requires Fresh(s) && SameGroup(s, chat)
    ensures Fresh(ChatArrived(s, chat, fromList)) && PlainMoves(ViewOf(s), ViewOf(ChatArrived(s, chat, fromList)))
  {
    var v := ViewOf(s);
    if chat.kind.NotAGroup? {
      assert Possible(v, Nothing) && After(v, Nothing) == v;
    } else {
      var group, s1 := chat.kind.group, RecordChat(s, chat);
      var st := StateOfChat(s, chat);
      RecordChatEffect(s, chat);
      var track := fromList && group !in s.core.groups && chat.id !in s1.core.pollSet;
      if track {
        TrackEffect(s1, chat);
      }
      var f := Bound(chat.id, group, st, track);
      assert Possible(v, f) && After(v, f) == ViewOf(if track then Track(s1, chat) else s1);
    }
  }

  lemma BasicGroupInfoEffect(s: State, group: int, members: Members)
    requires Fresh(s)
    ensures var s' := BasicGroupInfoArrived(s, group, members);
      Fresh(s') && ViewOf(s') == After(ViewOf(s), Learned(group, StateOfGroup(s, group)))
  {
    var st := StateOfGroup(s, group);
    var s1 := WithGroup(s, group, st);
    if st.seen {
      EmitGroupBeside(s1, group);
      EmitAdminsBeside(EmitGroup(s1, group), st.chat, members);
    }
  }

  // ---------------------------------------------------------------- all events

  lemma StartedMoves(v: View, v1: View, v2: View, id: nat)
    requires !v.core.pollStarted && v1 == v.(core := v.core.(authorized := true, pollStarted := true))
    requires id !in v1.waiting && v2 == v1.(waiting := v1.waiting[id := Alarm])
    ensures PlainMoves(v, v2)
  {
    assert Possible(v, Started(id)) && Plain(Started(id)) && After(v, Started(id)) == v2;
  }

  lemma StartMoves(s: State, s1: State)
    requires Fresh(s1) && ViewOf(s1) == ViewOf(WithAuthorized(s, true)) && !s.core.pollStarted
    ensures Fresh(ArmAlarm(WithPollStarted(s1))) && PlainMoves(ViewOf(s), ViewOf(ArmAlarm(WithPollStarted(s1))))
  {
    var s2 := WithPollStarted(s1);
    ArmAlarmEffect(s2);
    assert ViewOf(s2) == ViewOf(s).(core := s.core.(authorized := true, pollStarted := true)) by {
      assert s1.core == WithAuthorized(s, true).core;
    }
    StartedMoves(ViewOf(s), ViewOf(s2), ViewOf(ArmAlarm(s2)), s2.queryId + 1);
  }

  lemma ReadyMoves(s: State)
    requires Fresh(s)
    ensures Fresh(AuthorizationChanged(s, Ready)) && PlainMoves(ViewOf(s), ViewOf(AuthorizationChanged(s, Ready)))
  {
    var v, s0 := ViewOf(s), WithAuthorized(s, true);
    var s1 := SendQuery(s0, OtherQuery, Some(Ignore));
    SendBeside(s0, OtherQuery, Some(Ignore));
    if !s.core.pollStarted && s.core.pollEnabled {
      StartMoves(s, s1);
    } else {
      assert Possible(v, Authorize(true)) && After(v, Authorize(true)) == ViewOf(s1);
    }
  }

  lemma AuthorizationMoves(s: State, auth: Authorization)
    requires Fresh(s)
    ensures Fresh(AuthorizationChanged(s, auth)) && PlainMoves(ViewOf(s), ViewOf(AuthorizationChanged(s, auth)))
  {
    var v := ViewOf(s);
    match auth {
      case Asking =>
        SendBeside(s, OtherQuery, Some(Ignore));
        BesideMoves(s, AuthorizationChanged(s, Asking));
      case Ready => ReadyMoves(s);
      case LoggingOut =>
        assert Possible(v, Authorize(false)) && After(v, Authorize(false)) == ViewOf(WithAuthorized(s, false));
      case Closing => BesideMoves(s, s);
      case Closed => assert Possible(v, Stopped) && After(v, Stopped) == ViewOf(WithStopped(s));
    }
  }

  lemma BesideMoves(s: State, s': State)
    requires Fresh(s) && Beside(s, s')
    ensures Fresh(s') && PlainMoves(ViewOf(s), ViewOf(s'))
  {
    assert Possible(ViewOf(s), Nothing) && After(ViewOf(s), Nothing) == ViewOf(s);
  }

  lemma SupergroupMoves(s: State, group: int, isChannel: bool)
    requires Fresh(s)
    ensures var s' := SupergroupChanged(s, group, isChannel);
      Fresh(s') && PlainMoves(ViewOf(s), ViewOf(s'))
  {
    var v, s1 := ViewOf(s), WithSupergroup(s, group, isChannel);
    if group in s.core.groups {
      var st := s.core.groups[group].(kind := if isChannel then Channel else Supergroup);
      LearnedEffect(s1, group, st);
      assert Possible(v, Learned(group, st))
        && After(v, Learned(group, st)) == ViewOf(EmitGroup(WithGroup(s1, group, st), group));
    } else {
      BesideMoves(s, s1);
    }
  }

  lemma UserMoves(s: State, user: TdUser)
    ensures Beside(s, UserUpdated(s, user))
  {
    UserArrivedBeside(s, user);
    if user.id !in s.users {
      SendBeside(UserArrived(s, user), GetUserInfo(user.id), Some(FetchInfo(user.id)));
    }
  }

  lemma ChatUpdateBeside(s: State, u: Update)
    requires u.ChatTitle? || u.ChatPhoto?
    ensures Beside(s, AfterUpdate(s, u))
  {
    if u.ChatPhoto? {
      DownloadGroupPhotoBeside(s, u.chatId, u.photo);
    } else if u.chatId in s.core.chatGroup {
      EmitGroupBeside(s, s.core.chatGroup[u.chatId]);
    }
  }

  /** Updates that do not touch the protocol part. */
  lemma QuietUpdate(s: State, u: Update)
    requires u.User? || u.UserFullInfo? || u.FileUpdate? || u.ChatTitle? || u.ChatPhoto? || u.MessageEdited?
          || u.DeleteMessages? || u.OtherUpdate?
    ensures Beside(s, AfterUpdate(s, u))
  {
    match u {
      case User(user) => UserMoves(s, user);
      case UserFullInfo(user) => EmitBeside(s, ToSerial(SaveInfo(user)));
      case FileUpdate(file) => FileArrivedBeside(s, file);
      case ChatTitle(_) => ChatUpdateBeside(s, u);
      case ChatPhoto(_, _) => ChatUpdateBeside(s, u);
      case MessageEdited(key) => SendBeside(s, GetEdited(key), Some(FetchEdited));
      case DeleteMessages(chat, ids) => EmitDeletesBeside(s, chat, ids);
      case OtherUpdate =>
    }
  }

  lemma UpdateMoves(s: State, u: Update)
    requires Fresh(s) && Plausible(s, Updated(u))
    ensures Fresh(AfterUpdate(s, u)) && PlainMoves(ViewOf(s), ViewOf(AfterUpdate(s, u)))
  {
    var v := ViewOf(s);
    if u.AuthorizationState? {
      AuthorizationMoves(s, u.auth);
    } else if u.NewChat? {
      ChatArrivedEffect(s, u.chat, true);
    } else if u.SupergroupUpdate? {
      SupergroupMoves(s, u.group, u.isChannel);
    } else if u.SupergroupFullInfo? {
      LearnedEffect(s, u.group, StateOfGroup(s, u.group));
      assert Possible(v, Learned(u.group, StateOfGroup(s, u.group)));
    } else if u.BasicGroupFullInfo? {
      BasicGroupInfoEffect(s, u.group, u.members);
      assert Possible(v, Learned(u.group, StateOfGroup(s, u.group)));
    } else if u.NewMessage? {
      var w := TopMessageEffect(s, u.m);
      TopMoves(s, AfterUpdate(s, u), w);
    } else {
      QuietUpdate(s, u);
      BesideMoves(s, AfterUpdate(s, u));
    }
  }

  predicate AnswersAlarm(s: State, e: Event) {
    e.Answered? && e.id in s.handlers && s.handlers[e.id].Alarm?
  }

  predicate AnswersAdmins(s: State, e: Event) {
    e.Answered? && e.id in s.handlers && s.handlers[e.id].FetchAdmins?
  }

  lemma OtherAnswerMoves(s: State, c: Cont, o: Object)
    requires Fresh(s) && !Watched(c) && !c.FetchAdmins? && (c.FetchChat? && o.ChatObject? ==> SameGroup(s, o.chat))
    ensures Fresh(Resume(s, c, o)) && PlainMoves(ViewOf(s), ViewOf(Resume(s, c, o)))
  {
    var v := ViewOf(s);
    if c.FetchEdited? && o.MessageObject? {
      var w := TopMessageEffect(s, o.m);
      TopMoves(s, Resume(s, c, o), w);
    } else if c.FetchChat? && o.ChatObject? {
      ChatArrivedEffect(s, o.chat, false);
    } else {
      if c.FetchUser? && o.UserObject? {
        UserArrivedBeside(s, o.user);
      } else if c.FetchInfo? {
        EmitBeside(s, ToSerial(SaveInfo(c.user)));
      }
      BesideMoves(s, Resume(s, c, o));
    }
  }

  lemma Unwatched(s: State, id: nat)
    requires Fresh(s) && id in s.handlers && !Watched(s.handlers[id])
    ensures var s1 := WithHandlers(s, s.handlers - {id}); Fresh(s1) && ViewOf(s1) == ViewOf(s)
  {
    assert Waiting(s.handlers - {id}) == Waiting(s.handlers);
  }

  /** Events other than an alarm and an administrator list. */
  lemma PlainStep(s: State, e: Event)
    requires Fresh(s) && Plausible(s, e) && !AnswersAlarm(s, e) && !AnswersAdmins(s, e)
    ensures Fresh(Step(s, e)) && PlainMoves(ViewOf(s), ViewOf(Step(s, e)))
  {
    if e.Updated? {
      UpdateMoves(s, e.u);
    } else if e.CloseRequested? {
      SendBeside(WithClosing(s), OtherQuery, None);
      assert Possible(ViewOf(s), Shut) && After(ViewOf(s), Shut) == ViewOf(WithClosing(s));
    } else if e.id !in s.handlers {
      BesideMoves(s, s);
    } else if s.handlers[e.id].FetchReply? {
      ReplyArrivedEffect(s, e.id, e.o);
    } else {
      Unwatched(s, e.id);
      OtherAnswerMoves(WithHandlers(s, s.handlers - {e.id}), s.handlers[e.id], e.o);
    }
  }

  /** The answer to a request for administrators. */
  lemma AdminStep(s: State, e: Event)
    requires Fresh(s) && AnswersAdmins(s, e)
    ensures Fresh(Step(s, e)) && ViewOf(Step(s, e)) == After(ViewOf(s), AdminEffect(s.handlers[e.id].chat, e.o))
  {
    Unwatched(s, e.id);
    AdminsArrivedEffect(WithHandlers(s, s.handlers - {e.id}), s.handlers[e.id].chat, e.o);
  }

  /** Every event has an effect. */
  lemma StepMoves(s: State, e: Event)
    requires Fresh(s) && Plausible(s, e)
    ensures Fresh(Step(s, e)) && Moves(ViewOf(s), ViewOf(Step(s, e)))
  {
    if AnswersAlarm(s, e) {
      AlarmRangEffect(s, e.id);
    } else if AnswersAdmins(s, e) {
      AdminStep(s, e);
      assert Possible(ViewOf(s), AdminEffect(s.handlers[e.id].chat, e.o));
    } else {
      PlainStep(s, e);
      var f :| Possible(ViewOf(s), f) && ViewOf(Step(s, e)) == After(ViewOf(s), f) && Plain(f);
    }
  }
}
