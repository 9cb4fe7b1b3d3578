/**
 What the loop remembers after each event: users, groups, who is polled, flags, saved reply targets, and the
 rows for which downloads are in flight.
 */
module EventMemory {
  import opened Common
  import opened Models
  import opened EventLoop
  import opened EventLoopView
  import opened EventLoopEffects
  import opened EventLoopProtocols
  import opened EventTraffic

  // ---------------------------------------------------------------- the memory after an event

  function SupergroupKnown(s: State, group: int, isChannel: bool): State {
    var s1 := WithSupergroup(s, group, isChannel);
    if group in s.core.groups then
      WithGroup(s1, group, s.core.groups[group].(kind := if isChannel then Channel else Supergroup))
    else s1
  }

  function UpdateKnown(s: State, u: Update): State {
    match u
    case AuthorizationState(auth) => Authorized(s, auth)
    case User(user) => WithUser(s, user.id)
    case NewChat(chat) => ChatKnown(s, chat, true)
    case SupergroupUpdate(group, isChannel) => SupergroupKnown(s, group, isChannel)
    case SupergroupFullInfo(group) => WithGroup(s, group, StateOfGroup(s, group))
    case BasicGroupFullInfo(group, _) => WithGroup(s, group, StateOfGroup(s, group))
    case _ => s
  }

  function AnswerKnown(s: State, c: Cont, o: Object): State {
    match c
    case FetchReply(_, target, _, _) => if o.MessageObject? then MarkResolved(s, target) else s
    case FetchAdmins(chat) => MissesKnown(s, chat, o)
    case FetchChat => if o.ChatObject? then ChatKnown(s, o.chat, false) else s
    case FetchUser => if o.UserObject? then WithUser(s, o.user.id) else s
    case _ => s
  }

  function Remembers(s: State, e: Event): State {
    match e
    case Updated(u) => UpdateKnown(s, u)
    case Answered(id, o) => if id in s.handlers then AnswerKnown(s, s.handlers[id], o) else s
    case CloseRequested => WithClosing(s)
  }

  lemma SupergroupMemory(s: State, group: int, isChannel: bool)
    ensures Memory(SupergroupChanged(s, group, isChannel)) == Memory(SupergroupKnown(s, group, isChannel))
  {
    var s1 := WithSupergroup(s, group, isChannel);
    if group in s.core.groups {
      var st := s.core.groups[group].(kind := if isChannel then Channel else Supergroup);
      GroupLearnedDoes(s1, group, st);
    }
  }

  /** Updates after which the loop remembers what it did before. */
  predicate Forgotten(u: Update) {
    || u.UserFullInfo? || u.FileUpdate? || u.ChatTitle? || u.ChatPhoto? || u.NewMessage? || u.MessageEdited?
    || u.DeleteMessages? || u.OtherUpdate?
  }

  lemma ForgottenMemory(s: State, u: Update)
    requires Forgotten(u)
    ensures Memory(AfterUpdate(s, u)) == Memory(s)
  {
    match u {
      case UserFullInfo(user) => EmitDoes(s, ToSerial(SaveInfo(user)));
      case FileUpdate(f) => FileArrivedDoes(s, f);
      case ChatTitle(_) => ChatUpdateMemory(s, u);
      case ChatPhoto(_, _) => ChatUpdateMemory(s, u);
      case NewMessage(m) => TopMessageDoes(s, m);
      case MessageEdited(key) => SendDoes(s, GetEdited(key), Some(FetchEdited));
      case DeleteMessages(chat, ids) => EmitDeletesDoes(s, chat, ids);
      case OtherUpdate =>
    }
  }

  lemma UpdateMemory(s: State, u: Update)
    ensures Memory(AfterUpdate(s, u)) == Memory(UpdateKnown(s, u))
  {
    match u {
      case AuthorizationState(auth) => AuthorizationDoes(s, auth);
      case User(user) => UserUpdatedDoes(s, user);
      case NewChat(chat) => ChatArrivedDoes(s, chat, true);
      case SupergroupUpdate(_, _) => GroupUpdateMemory(s, u);
      case SupergroupFullInfo(_) => GroupUpdateMemory(s, u);
      case BasicGroupFullInfo(_, _) => GroupUpdateMemory(s, u);
      case _ => ForgottenMemory(s, u);
    }
  }

  lemma GroupUpdateMemory(s: State, u: Update)
    requires u.SupergroupUpdate? || u.SupergroupFullInfo? || u.BasicGroupFullInfo?
    ensures Memory(AfterUpdate(s, u)) == Memory(UpdateKnown(s, u))
  {
    if u.SupergroupUpdate? {
      SupergroupMemory(s, u.group, u.isChannel);
    } else if u.SupergroupFullInfo? {
      GroupLearnedDoes(s, u.group, StateOfGroup(s, u.group));
    } else {
      BasicGroupInfoDoes(s, u.group, u.members);
    }
  }

  lemma ChatUpdateMemory(s: State, u: Update)
    requires u.ChatTitle? || u.ChatPhoto?
    ensures Memory(AfterUpdate(s, u)) == Memory(s)
  {
    if u.chatId in s.core.chatGroup {
      if u.ChatTitle? {
        EmitGroupDoes(s, s.core.chatGroup[u.chatId]);
      } else {
        GroupPhotoDoes(s, u.chatId, u.photo);
      }
    }
  }

  lemma AnswerMemory(s: State, c: Cont, o: Object)
    requires !c.Alarm?
    ensures Memory(Resume(s, c, o)) == Memory(AnswerKnown(s, c, o))
  {
    match c {
      case FetchReply(src, target, depth, root) =>
        if o.MessageObject? {
          ReplyFetchedDoes(s, src, target, depth, root, o.m);
        } else {
          EmitDoes(s, LinkJob(src, target, Unavailable));
        }
      case FetchEdited =>
        if o.MessageObject? {
          TopMessageDoes(s, o.m);
        }
      case FetchAdmins(chat) => AdminsArrivedDoes(s, chat, o);
      case FetchChat =>
        if o.ChatObject? {
          ChatArrivedDoes(s, o.chat, false);
        }
      case FetchUser =>
        if o.UserObject? {
          UserArrivedDoes(s, o.user);
        }
      case FetchInfo(user) => EmitDoes(s, ToSerial(SaveInfo(user)));
      case Ignore =>
    }
  }

  /** An answer changes the memory in the same way whether or not its continuation is still stored. */
  lemma ReceivedMemory(s: State, id: nat, c: Cont, o: Object)
    ensures Memory(AnswerKnown(WithHandlers(s, s.handlers - {id}), c, o)) == Memory(AnswerKnown(s, c, o))
  {
  }

  lemma StepMemory(s: State, e: Event)
    requires !AnswersAlarm(s, e)
    ensures Memory(Step(s, e)) == Memory(Remembers(s, e))
  {
    match e {
      case Updated(u) => UpdateMemory(s, u);
      case Answered(id, o) =>
        if id in s.handlers {
          AnswerMemory(WithHandlers(s, s.handlers - {id}), s.handlers[id], o);
          ReceivedMemory(s, id, s.handlers[id], o);
        }
      case CloseRequested => SendDoes(WithClosing(s), OtherQuery, None);
    }
  }

  /** An alarm may turn the poll queue, and that is all. */
  lemma AlarmMemory(s: State, e: Event)
    requires Fresh(s) && AnswersAlarm(s, e)
    ensures Memory(Step(s, e)) == Memory(WithQueue(s, Step(s, e).core.pollQueue))
  {
    var s1 := Received(s, e);
    if s.core.stopped || s.core.closing {
      assert Step(s, e) == s1;
    } else if s.core.authorized {
      var s2 := Poll(s1, 0, |s1.core.pollQueue|);
      var n := PollEffect(s1, 0, |s1.core.pollQueue|);
      PollKeepsCaches(s1, 0, |s1.core.pollQueue|);
      assert s2.core == ViewOf(s2).core == s.core.(pollQueue := s2.core.pollQueue);
      assert Step(s, e) == ArmAlarm(s2);
    } else {
      assert Step(s, e) == ArmAlarm(s1);
    }
  }

  lemma {:induction false} PollKeepsCaches(s: State, polled: nat, scan: nat)
    ensures Poll(s, polled, scan).users == s.users && Poll(s, polled, scan).supergroups == s.supergroups
    decreases scan
  {
    if polled < s.core.batch && scan > 0 && s.core.pollQueue != [] {
      PollKeepsCaches(Look(s), if IsHit(s) then polled + 1 else polled, scan - 1);
    }
  }

  /** Reading a field of the memory after an event. */
  lemma MemoryFields(s: State, s': State)
    requires Memory(s) == Memory(s')
    ensures s.users == s'.users && s.supergroups == s'.supergroups && Flags(s.core) == Flags(s'.core)
    ensures s.core.groups == s'.core.groups && s.core.chatGroup == s'.core.chatGroup
    ensures s.core.pollSet == s'.core.pollSet && s.core.pollQueue == s'.core.pollQueue
    ensures s.core.resolved == s'.core.resolved
  {
    var c, c' := Bare(s.core), Bare(s'.core);
    assert c == c';
    assert c.groups == s.core.groups && c.chatGroup == s.core.chatGroup && c.resolved == s.core.resolved;
    assert c'.groups == s'.core.groups && c'.chatGroup == s'.core.chatGroup && c'.resolved == s'.core.resolved;
    assert Flags(c) == Flags(s.core) && Flags(c') == Flags(s'.core);
  }

  /** All but the flags and the misses. */
  function Rest(s: State)
    : (set<int>, map<int, bool>, map<int, GroupState>, map<int, int>, set<int>, seq<int>, set<Key>)
  {
    var c := s.core;
    (s.users, s.supergroups, c.groups, c.chatGroup, c.pollSet, c.pollQueue, c.resolved)
  }

  lemma AuthorizedRest(s: State, auth: Authorization)
    ensures Rest(Authorized(s, auth)) == Rest(s)
  {
    match auth {
      case Asking =>
      case Ready => assert Rest(WithPollStarted(WithAuthorized(s, true))) == Rest(WithAuthorized(s, true)) == Rest(s);
      case LoggingOut => assert Rest(WithAuthorized(s, false)) == Rest(s);
      case Closing =>
      case Closed => assert Rest(WithStopped(s)) == Rest(s);
    }
  }

  /** A chat that arrives touches groups and polling only. */
  lemma ChatKnownRest(s: State, chat: TdChat, fromList: bool)
    ensures var s' := ChatKnown(s, chat, fromList);
      (s'.users, s'.supergroups, s'.core.resolved, Flags(s'.core))
      == (s.users, s.supergroups, s.core.resolved, Flags(s.core))
  {
    if !chat.kind.NotAGroup? {
      var s1 := Bind(s, chat);
      assert (s1.users, s1.supergroups, s1.core.resolved, Flags(s1.core))
          == (s.users, s.supergroups, s.core.resolved, Flags(s.core));
    }
  }

  lemma ChatKnownPolls(s: State, chat: TdChat, fromList: bool)
    ensures var c' := ChatKnown(s, chat, fromList).core;
      (c'.pollSet, c'.pollQueue) ==
        if Tracks(s, chat, fromList) then (s.core.pollSet + {chat.id}, s.core.pollQueue + [chat.id])
        else (s.core.pollSet, s.core.pollQueue)
  {
    if !chat.kind.NotAGroup? {
      var c1 := Bind(s, chat).core;
      assert (c1.pollSet, c1.pollQueue) == (s.core.pollSet, s.core.pollQueue);
    }
  }

  /** Updates about one group change no more than the entry of the group and whether it is a channel. */
  lemma GroupUpdateRest(s: State, u: Update)
    requires u.SupergroupUpdate? || u.SupergroupFullInfo? || u.BasicGroupFullInfo?
    ensures var s' := UpdateKnown(s, u); var c, c' := s.core, s'.core;
      (s'.users, c'.chatGroup, c'.pollSet, c'.pollQueue, c'.resolved, Flags(c'))
      == (s.users, c.chatGroup, c.pollSet, c.pollQueue, c.resolved, Flags(c))
  {
    if u.SupergroupUpdate? {
      SupergroupRest(s, u.group, u.isChannel);
    } else {
      WithGroupRest(s, u.group, StateOfGroup(s, u.group));
    }
  }

  lemma WithGroupRest(s: State, group: int, st: GroupState)
    ensures var s' := WithGroup(s, group, st); var c, c' := s.core, s'.core;
      (s'.users, c'.chatGroup, c'.pollSet, c'.pollQueue, c'.resolved, Flags(c'))
      == (s.users, c.chatGroup, c.pollSet, c.pollQueue, c.resolved, Flags(c))
  {
  }

  lemma SupergroupRest(s: State, group: int, isChannel: bool)
    ensures var s' := SupergroupKnown(s, group, isChannel); var c, c' := s.core, s'.core;
      (s'.users, c'.chatGroup, c'.pollSet, c'.pollQueue, c'.resolved, Flags(c'))
      == (s.users, c.chatGroup, c.pollSet, c.pollQueue, c.resolved, Flags(c))
  {
    if group in s.core.groups {
      var s1 := WithSupergroup(s, group, isChannel);
      WithGroupRest(s1, group, s.core.groups[group].(kind := if isChannel then Channel else Supergroup));
    }
  }

  /** What updates do to users and saved reply targets. */
  lemma UpdateRest(s: State, u: Update)
    ensures var s' := UpdateKnown(s, u);
      (s'.users, s'.core.resolved) == (s.users + (if u.User? then {u.user.id} else {}), s.core.resolved)
  {
    assert s.users + {} == s.users;
    if u.AuthorizationState? {
      AuthorizedRest(s, u.auth);
    } else if u.NewChat? {
      ChatKnownRest(s, u.chat, true);
    } else if u.SupergroupUpdate? || u.SupergroupFullInfo? || u.BasicGroupFullInfo? {
      GroupUpdateRest(s, u);
    } else if !u.User? {
      assert UpdateKnown(s, u) == s;
    }
  }

  /** The state that remembers what is remembered after the event. */
  function AfterEvent(s: State, e: Event): State {
    if AnswersAlarm(s, e) then WithQueue(s, Step(s, e).core.pollQueue) else Remembers(s, e)
  }

  lemma MemoryAfter(s: State, e: Event)
    requires Fresh(s)
    ensures Memory(Step(s, e)) == Memory(AfterEvent(s, e))
  {
    if AnswersAlarm(s, e) {
      AlarmMemory(s, e);
    } else {
      StepMemory(s, e);
    }
  }

  /** The continuation that the event answers. */
  function Answers(s: State, e: Event): Option<Cont> {
    if e.Answered? && e.id in s.handlers then Some(s.handlers[e.id]) else None
  }

  // ---------------------------------------------------------------- users and flags

  /** The user that the event brings. */
  function UserIn(s: State, e: Event): Option<int> {
    if e.Updated? && e.u.User? then Some(e.u.user.id)
    else if Answers(s, e) == Some(FetchUser) && e.o.UserObject? then Some(e.o.user.id)
    else None
  }

  lemma UsersAfter(s: State, e: Event)
    ensures AfterEvent(s, e).users == s.users + if UserIn(s, e).Some? then {UserIn(s, e).value} else {}
  {
    if e.Answered? && !AnswersAlarm(s, e) && e.id in s.handlers {
      AnswerUsers(s, s.handlers[e.id], e.o);
    } else if e.Updated? {
      UpdateUsers(s, e.u);
    }
  }

  lemma UpdateUsers(s: State, u: Update)
    ensures UpdateKnown(s, u).users == s.users + if u.User? then {u.user.id} else {}
  {
    UpdateRest(s, u);
  }

  lemma AnswerUsers(s: State, c: Cont, o: Object)
    ensures AnswerKnown(s, c, o).users == s.users + if c.FetchUser? && o.UserObject? then {o.user.id} else {}
  {
  }

  /** A user is known from its first update, or the answer to a request, on. */
  lemma StepUsers(s: State, e: Event)
    requires Fresh(s)
    ensures Step(s, e).users == s.users + if UserIn(s, e).Some? then {UserIn(s, e).value} else {}
  {
    MemoryAfter(s, e);
    MemoryFields(Step(s, e), AfterEvent(s, e));
    UsersAfter(s, e);
  }

  function Flags(c: Core): (bool, bool, bool, bool, bool, nat) {
    (c.authorized, c.stopped, c.closing, c.pollStarted, c.pollEnabled, c.batch)
  }

  predicate Reports(e: Event, auth: Authorization) {
    e.Updated? && e.u == AuthorizationState(auth)
  }

  /** Ready authorizes and starts polling; logging out and the end de-authorize; the end and closing are for good. */
  function FlagsAfter(c: Core, e: Event): (bool, bool, bool, bool, bool, nat) {
    (Reports(e, Ready) || (c.authorized && !Reports(e, LoggingOut) && !Reports(e, Closed)),
     c.stopped || Reports(e, Closed),
     c.closing || e.CloseRequested?,
     c.pollStarted || (Reports(e, Ready) && c.pollEnabled),
     c.pollEnabled,
     c.batch)
  }

  lemma UpdateFlags(s: State, u: Update)
    ensures Flags(UpdateKnown(s, u).core) == FlagsAfter(s.core, Updated(u))
  {
    if u.AuthorizationState? {
      AuthorizedFlags(s.core, u.auth);
      AuthorizedIs(s, u.auth);
    } else if u.NewChat? {
      ChatKnownRest(s, u.chat, true);
    } else if u.SupergroupUpdate? || u.SupergroupFullInfo? || u.BasicGroupFullInfo? {
      GroupUpdateRest(s, u);
    }
  }

  function AuthorizedCore(c: Core, auth: Authorization): Core {
    match auth
    case Asking => c
    case Ready => c.(authorized := true, pollStarted := c.pollStarted || c.pollEnabled)
    case LoggingOut => c.(authorized := false)
    case Closing => c
    case Closed => c.(authorized := false, stopped := true)
  }

  lemma AuthorizedIs(s: State, auth: Authorization)
    ensures Authorized(s, auth).core == AuthorizedCore(s.core, auth)
  {
  }

  lemma AuthorizedFlags(c: Core, auth: Authorization)
    ensures Flags(AuthorizedCore(c, auth)) == FlagsAfter(c, Updated(AuthorizationState(auth)))
  {
  }

  lemma AnswerFlags(s: State, c: Cont, o: Object)
    ensures Flags(AnswerKnown(s, c, o).core) == Flags(s.core)
  {
  }

  lemma StepFlags(s: State, e: Event)
    requires Fresh(s)
    ensures Flags(Step(s, e).core) == FlagsAfter(s.core, e)
  {
    MemoryAfter(s, e);
    MemoryFields(Step(s, e), AfterEvent(s, e));
    if e.Updated? {
      UpdateFlags(s, e.u);
    } else if e.Answered? && !AnswersAlarm(s, e) && e.id in s.handlers {
      AnswerFlags(s, s.handlers[e.id], e.o);
    }
  }

  // ---------------------------------------------------------------- groups

  /** The group chat that the event brings. */
  function GroupChatIn(s: State, e: Event): Option<TdChat> {
    if e.Updated? && e.u.NewChat? && !e.u.chat.kind.NotAGroup? then Some(e.u.chat)
    else if Answers(s, e) == Some(FetchChat) && e.o.ChatObject? && !e.o.chat.kind.NotAGroup? then Some(e.o.chat)
    else None
  }

  function Lookup<V>(m: map<int, V>, k: int): Option<V> {
    if k in m then Some(m[k]) else None
  }

  /** A group known to be a channel counts as one, whatever the chat says. */
  function KindSeen(s: State, kind: ChatKind): GroupType
    requires !kind.NotAGroup?
  {
    if Lookup(s.supergroups, kind.group) == Some(true) || (kind.IsSupergroup? && kind.isChannel) then Channel
    else if kind.IsSupergroup? then Supergroup
    else BasicGroup
  }

  /** Full info of the group arrives. */
  predicate InformsOf(u: Update, group: int) {
    (u.SupergroupFullInfo? && u.group == group) || (u.BasicGroupFullInfo? && u.group == group)
  }

  /** What is known of one group after a chat of it, if any, arrived. */
  function GroupSeen(s: State, chat: Option<TdChat>, group: int): Option<GroupState> {
    if chat.Some? && !chat.value.kind.NotAGroup? && chat.value.kind.group == group
    then Some(GroupState(KindSeen(s, chat.value.kind), chat.value.id, true))
    else Lookup(s.core.groups, group)
  }

  /** What is known of one group after an event. */
  function GroupAfter(s: State, e: Event, group: int): Option<GroupState> {
    var was := Lookup(s.core.groups, group);
    if e.Updated? && e.u.SupergroupUpdate? && e.u.group == group && was.Some? then
      Some(was.value.(kind := if e.u.isChannel then Channel else Supergroup))
    else if e.Updated? && InformsOf(e.u, group) && was.None? then
      Some(GroupState(BasicGroup, 0, false))
    else
      GroupSeen(s, GroupChatIn(s, e), group)
  }

  function ChatsAfter(c: Core, chat: Option<TdChat>): map<int, int> {
    if chat.Some? && !chat.value.kind.NotAGroup? then c.chatGroup[chat.value.id := chat.value.kind.group]
    else c.chatGroup
  }

  lemma ChatKnownGroups(s: State, chat: TdChat, fromList: bool, group: int)
    ensures Lookup(ChatKnown(s, chat, fromList).core.groups, group) == GroupSeen(s, Some(chat), group)
    ensures ChatKnown(s, chat, fromList).core.chatGroup == ChatsAfter(s.core, Some(chat))
    ensures ChatKnown(s, chat, fromList).supergroups == s.supergroups
  {
    if !chat.kind.NotAGroup? {
      var s1 := Bind(s, chat);
      assert StateOfChat(s, chat) == GroupState(KindSeen(s, chat.kind), chat.id, true);
      LookupSet(s.core.groups, chat.kind.group, StateOfChat(s, chat), group);
      assert (s1.core.groups, s1.core.chatGroup, s1.supergroups)
          == (s.core.groups[chat.kind.group := StateOfChat(s, chat)], ChatsAfter(s.core, Some(chat)), s.supergroups);
    }
  }

  lemma UpdateGroups(s: State, u: Update, group: int)
    ensures Lookup(UpdateKnown(s, u).core.groups, group) == GroupAfter(s, Updated(u), group)
    ensures UpdateKnown(s, u).core.chatGroup == ChatsAfter(s.core, GroupChatIn(s, Updated(u)))
    ensures UpdateKnown(s, u).supergroups ==
      if u.SupergroupUpdate? then s.supergroups[u.group := u.isChannel] else s.supergroups
  {
    if u.NewChat? {
      ChatKnownGroups(s, u.chat, true, group);
    } else if u.AuthorizationState? {
      AuthorizedRest(s, u.auth);
    } else if u.SupergroupUpdate? || u.SupergroupFullInfo? || u.BasicGroupFullInfo? {
      GroupUpdateRest(s, u);
      GroupUpdateGroups(s, u, group);
    } else if u.User? {
      assert UpdateKnown(s, u) == WithUser(s, u.user.id);
    } else {
      assert UpdateKnown(s, u) == s;
    }
  }

  lemma GroupUpdateGroups(s: State, u: Update, group: int)
    requires u.SupergroupUpdate? || u.SupergroupFullInfo? || u.BasicGroupFullInfo?
    ensures Lookup(UpdateKnown(s, u).core.groups, group) == GroupAfter(s, Updated(u), group)
    ensures UpdateKnown(s, u).supergroups ==
      if u.SupergroupUpdate? then s.supergroups[u.group := u.isChannel] else s.supergroups
  {
    if u.SupergroupUpdate? {
      SupergroupGroups(s, u.group, u.isChannel, group);
    } else {
      InfoGroups(s, u.group, group);
    }
  }

  lemma SupergroupGroups(s: State, informed: int, isChannel: bool, group: int)
    ensures var s' := SupergroupKnown(s, informed, isChannel);
      && Lookup(s'.core.groups, group) == GroupAfter(s, Updated(SupergroupUpdate(informed, isChannel)), group)
      && s'.supergroups == s.supergroups[informed := isChannel]
  {
    if informed in s.core.groups {
      var st := s.core.groups[informed].(kind := if isChannel then Channel else Supergroup);
      LookupSet(s.core.groups, informed, st, group);
      assert SupergroupKnown(s, informed, isChannel).core.groups == s.core.groups[informed := st];
    } else {
      assert SupergroupKnown(s, informed, isChannel) == WithSupergroup(s, informed, isChannel);
    }
  }

  lemma LookupSet<V>(m: map<int, V>, k: int, v: V, j: int)
    ensures Lookup(m[k := v], j) == if j == k then Some(v) else Lookup(m, j)
  {
  }

  lemma InfoGroups(s: State, informed: int, group: int)
    ensures var s' := WithGroup(s, informed, StateOfGroup(s, informed));
      && s'.supergroups == s.supergroups
      && Lookup(s'.core.groups, group) ==
           if informed == group && group !in s.core.groups then Some(GroupState(BasicGroup, 0, false))
           else Lookup(s.core.groups, group)
  {
  }

  lemma AnswerGroups(s: State, c: Cont, o: Object, group: int)
    ensures var chat := if c.FetchChat? && o.ChatObject? then Some(o.chat) else None;
      var s' := AnswerKnown(s, c, o);
      && Lookup(s'.core.groups, group) == GroupSeen(s, chat, group)
      && s'.core.chatGroup == ChatsAfter(s.core, chat) && s'.supergroups == s.supergroups
  {
    if c.FetchChat? && o.ChatObject? {
      ChatKnownGroups(s, o.chat, false, group);
    }
  }

  lemma StepGroups(s: State, e: Event, group: int)
    requires Fresh(s)
    ensures Lookup(Step(s, e).core.groups, group) == GroupAfter(s, e, group)
    ensures Step(s, e).core.chatGroup == ChatsAfter(s.core, GroupChatIn(s, e))
    ensures Step(s, e).supergroups ==
      if e.Updated? && e.u.SupergroupUpdate? then s.supergroups[e.u.group := e.u.isChannel] else s.supergroups
  {
    MemoryAfter(s, e);
    MemoryFields(Step(s, e), AfterEvent(s, e));
    if e.Updated? {
      UpdateGroups(s, e.u, group);
    } else if e.Answered? && !AnswersAlarm(s, e) && e.id in s.handlers {
      AnswerGroups(s, s.handlers[e.id], e.o, group);
    }
  }

  // ---------------------------------------------------------------- who is polled

  /** The event lists a group for the first time whose chat is not polled yet. */
  predicate Lists(s: State, e: Event, chat: int) {
    && e.Updated? && e.u.NewChat? && e.u.chat.id == chat && !e.u.chat.kind.NotAGroup?
    && e.u.chat.kind.group !in s.core.groups && chat !in s.core.pollSet
  }

  lemma UpdatePolls(s: State, u: Update)
    ensures var c' := UpdateKnown(s, u).core;
      (c'.pollSet, c'.pollQueue) ==
        if u.NewChat? && Tracks(s, u.chat, true) then (s.core.pollSet + {u.chat.id}, s.core.pollQueue + [u.chat.id])
        else (s.core.pollSet, s.core.pollQueue)
  {
    if u.NewChat? {
      ChatKnownPolls(s, u.chat, true);
    } else if u.AuthorizationState? {
      AuthorizedRest(s, u.auth);
    } else if u.SupergroupUpdate? || u.SupergroupFullInfo? || u.BasicGroupFullInfo? {
      GroupUpdateRest(s, u);
    }
  }

  lemma AnswerPolls(s: State, c: Cont, o: Object)
    ensures AnswerKnown(s, c, o).core.pollSet <= s.core.pollSet
  {
    if c.FetchChat? && o.ChatObject? {
      ChatKnownPolls(s, o.chat, false);
    }
  }

  /** A chat starts to be polled exactly then, behind all others, whatever else happens. */
  lemma StepTracks(s: State, e: Event, chat: int)
    requires Fresh(s)
    ensures chat !in s.core.pollSet && chat in Step(s, e).core.pollSet <==> Lists(s, e, chat)
    ensures Lists(s, e, chat) ==> Step(s, e).core.pollQueue == s.core.pollQueue + [chat]
  {
    MemoryAfter(s, e);
    MemoryFields(Step(s, e), AfterEvent(s, e));
    if e.Updated? {
      UpdatePolls(s, e.u);
    } else if e.Answered? && !AnswersAlarm(s, e) && e.id in s.handlers {
      AnswerPolls(s, s.handlers[e.id], e.o);
    }
  }

  /** Of a supergroup the members are asked for at once, and the answer will be taken for that chat. */
  lemma ListedIsAsked(s: State, e: Event, chat: int)
    requires Lists(s, e, chat) && e.u.chat.kind.IsSupergroup?
    ensures var s' := Step(s, e);
      && s'.sent != [] && s'.sent[|s'.sent| - 1] == GetMembers(e.u.chat.kind.group, chat)
      && s'.queryId in s'.handlers && s'.handlers[s'.queryId] == FetchAdmins(chat)
  {
    StepTraffic(s, e);
    var asks := AsksOf(s, e);
    assert asks[|asks| - 1] == Ask(GetMembers(e.u.chat.kind.group, chat), Some(FetchAdmins(chat)));
  }

  // ---------------------------------------------------------------- saved reply targets

  lemma AnswerResolved(s: State, c: Cont, o: Object)
    ensures var before := s.core.resolved;
      AnswerKnown(s, c, o).core.resolved ==
        if c.FetchReply? && o.MessageObject? then (if |before| < 1000000 then before else {}) + {c.target} else before
  {
    if c.FetchChat? && o.ChatObject? {
      ChatKnownRest(s, o.chat, false);
    }
  }

  /** A reply target is remembered exactly when its fetch brought it; below the cap nothing is forgotten. */
  lemma StepResolved(s: State, e: Event)
    requires Fresh(s)
    ensures var before, c := s.core.resolved, Answers(s, e);
      Step(s, e).core.resolved ==
        if c.Some? && c.value.FetchReply? && e.o.MessageObject?
        then (if |before| < 1000000 then before else {}) + {c.value.target}
        else before
  {
    MemoryAfter(s, e);
    MemoryFields(Step(s, e), AfterEvent(s, e));
    if e.Updated? {
      UpdateRest(s, e.u);
    } else if e.Answered? && !AnswersAlarm(s, e) && e.id in s.handlers {
      AnswerResolved(s, s.handlers[e.id], e.o);
    }
  }

  // ---------------------------------------------------------------- downloads in flight

  /** For which user, group or message each file is being downloaded. */
  function Downloads(s: State): (map<int, int>, map<int, int>, map<int, Key>) {
    (s.pendingPhoto, s.pendingGroupPhoto, s.pendingMessageFile)
  }

  /** A file that is not there yet is wanted for v, whoever wanted it before. */
  function Wanted<V>(pending: map<int, V>, f: Option<File>, v: V): map<int, V> {
    if f.Some? && !f.value.done then pending[f.value.id := v] else pending
  }

  /** The user that arrives with the event. */
  function ArrivingUser(s: State, e: Event): Option<TdUser> {
    if e.Updated? && e.u.User? then Some(e.u.user)
    else if Answers(s, e) == Some(FetchUser) && e.o.UserObject? then Some(e.o.user)
    else None
  }

  /** The chat whose photo arrives with the event, and the photo if it has one. */
  function ArrivingPhoto(s: State, e: Event): Option<(int, Option<File>)> {
    if GroupChatIn(s, e).Some? then Some((GroupChatIn(s, e).value.id, GroupChatIn(s, e).value.photo))
    else if e.Updated? && e.u.ChatPhoto? && e.u.chatId in s.core.chatGroup then Some((e.u.chatId, e.u.photo))
    else None
  }

  /** The message that arrives with the event: new, edited or fetched for a reply. */
  function ArrivingMessage(s: State, e: Event): Option<TdMessage> {
    var c := Answers(s, e);
    if e.Updated? && e.u.NewMessage? then Some(e.u.m)
    else if c.Some? && (c.value.FetchEdited? || c.value.FetchReply?) && e.o.MessageObject? then Some(e.o.m)
    else None
  }

  /** A finished file is no longer waited for by the one it is stored for. */
  function DownloadsEnded(s: State, f: int): (map<int, int>, map<int, int>, map<int, Key>) {
    if f in s.pendingPhoto then (s.pendingPhoto - {f}, s.pendingGroupPhoto, s.pendingMessageFile)
    else if f in s.pendingGroupPhoto then (s.pendingPhoto, s.pendingGroupPhoto - {f}, s.pendingMessageFile)
    else (s.pendingPhoto, s.pendingGroupPhoto, s.pendingMessageFile - {f})
  }

  function DownloadsAfter(s: State, e: Event): (map<int, int>, map<int, int>, map<int, Key>) {
    var user, photo, m := ArrivingUser(s, e), ArrivingPhoto(s, e), ArrivingMessage(s, e);
    if e.Updated? && e.u.FileUpdate? && e.u.file.done then DownloadsEnded(s, e.u.file.id)
    else
      (if user.Some? then Wanted(s.pendingPhoto, user.value.photo, user.value.id) else s.pendingPhoto,
       if photo.Some? then Wanted(s.pendingGroupPhoto, photo.value.1, photo.value.0) else s.pendingGroupPhoto,
       if m.Some? then Wanted(s.pendingMessageFile, m.value.file, m.value.Key()) else s.pendingMessageFile)
  }

  lemma EnsureUserDownloads(s: State, user: int)
    ensures Downloads(EnsureUser(s, user)) == Downloads(s)
  {
  }

  lemma EnsureChatDownloads(s: State, chat: int)
    ensures Downloads(EnsureChat(s, chat)) == Downloads(s)
  {
  }

  lemma ResolveOriginDownloads(s: State, m: TdMessage)
    ensures Downloads(ResolveOrigin(s, m)) == Downloads(s)
  {
    var s1 := if m.originUser.Some? then EnsureUser(s, m.originUser.value) else s;
    if m.originUser.Some? {
      EnsureUserDownloads(s, m.originUser.value);
    }
    if m.originChat.Some? {
      EnsureChatDownloads(s1, m.originChat.value);
    }
  }

  lemma EnsureEntitiesDownloads(s: State, m: TdMessage)
    ensures Downloads(EnsureEntities(s, m)) == Downloads(s)
  {
    var s1 := if IsPrivate(m.chat) then EnsureUser(s, m.chat) else EnsureChat(s, m.chat);
    EnsureUserDownloads(s, m.chat);
    EnsureChatDownloads(s, m.chat);
    if m.sender.UserSender? {
      EnsureUserDownloads(s1, m.sender.user);
    } else if m.sender.ChatSender? {
      EnsureChatDownloads(s1, m.sender.chat);
    }
  }

  lemma ResolveReplyDownloads(s: State, m: TdMessage, depth: nat, root: nat)
    ensures Downloads(ResolveReply(s, m, depth, root)) == Downloads(s)
  {
  }

  lemma HandleMessageDownloads(s: State, m: TdMessage, depth: nat, root: nat)
    ensures Downloads(HandleMessage(s, m, depth, root))
         == (s.pendingPhoto, s.pendingGroupPhoto, Wanted(s.pendingMessageFile, m.file, m.Key()))
  {
    var s1 := Emit(ResolveOrigin(s, m), SaveOf(m.Row()));
    var s2 := DownloadMessageFile(s1, m);
    ResolveOriginDownloads(s, m);
    assert Downloads(s1) == Downloads(s);
    assert Downloads(s2) == (s.pendingPhoto, s.pendingGroupPhoto, Wanted(s.pendingMessageFile, m.file, m.Key()));
    ResolveReplyDownloads(s2, m, depth, root);
  }

  lemma TopMessageDownloads(s: State, m: TdMessage)
    ensures Downloads(HandleTopMessage(s, m))
         == (s.pendingPhoto, s.pendingGroupPhoto, Wanted(s.pendingMessageFile, m.file, m.Key()))
  {
    HandleMessageDownloads(WithRoot(s), m, 0, s.core.roots);
  }

  lemma ReplyFetchedDownloads(s: State, src: Key, target: Key, depth: nat, root: nat, r: TdMessage)
    ensures Downloads(ReplyFetched(s, src, target, depth, root, r))
         == (s.pendingPhoto, s.pendingGroupPhoto, Wanted(s.pendingMessageFile, r.file, r.Key()))
  {
    var s1 := MarkResolved(s, target);
    var s2 := EnsureEntities(s1, r);
    assert Downloads(s1) == Downloads(s);
    EnsureEntitiesDownloads(s1, r);
    HandleMessageDownloads(s2, r, depth + 1, root);
  }

  lemma {:induction false} DeletesDownloads(s: State, chat: int, ids: seq<int>)
    ensures Downloads(EmitDeletes(s, chat, ids)) == Downloads(s)
  {
    if ids != [] {
      DeletesDownloads(s, chat, ids[..|ids| - 1]);
    }
  }

  lemma {:induction false} AdminsDownloads(s: State, members: Members)
    ensures Downloads(EnsureAdmins(s, members)) == Downloads(s)
  {
    if members != [] {
      var front, m := members[..|members| - 1], members[|members| - 1];
      AdminsDownloads(s, front);
      if m.Some? {
        EnsureUserDownloads(EnsureAdmins(s, front), m.value.userId);
      }
    }
  }

  lemma EmitAdminsDownloads(s: State, chat: int, members: Members)
    ensures Downloads(EmitAdmins(s, chat, members)) == Downloads(s)
  {
    AdminsDownloads(s, members);
  }

  lemma {:induction false} PollDownloads(s: State, polled: nat, scan: nat)
    ensures Downloads(Poll(s, polled, scan)) == Downloads(s)
    decreases scan
  {
    if polled < s.core.batch && scan > 0 && s.core.pollQueue != [] {
      PollDownloads(Look(s), if IsHit(s) then polled + 1 else polled, scan - 1);
    }
  }

  lemma UserArrivedDownloads(s: State, u: TdUser)
    ensures Downloads(UserArrived(s, u))
         == (Wanted(s.pendingPhoto, u.photo, u.id), s.pendingGroupPhoto, s.pendingMessageFile)
  {
  }

  lemma GroupPhotoDownloads(s: State, chat: int, photo: Option<File>)
    ensures Downloads(DownloadGroupPhoto(s, chat, photo))
         == (s.pendingPhoto, Wanted(s.pendingGroupPhoto, photo, chat), s.pendingMessageFile)
  {
  }

  lemma ChatArrivedDownloads(s: State, chat: TdChat, fromList: bool)
    requires !chat.kind.NotAGroup?
    ensures Downloads(ChatArrived(s, chat, fromList))
         == (s.pendingPhoto, Wanted(s.pendingGroupPhoto, chat.photo, chat.id), s.pendingMessageFile)
  {
    var s2 := Emit(Bind(s, chat), SaveOf(GroupRow(chat.id)));
    var s3 := RequestGroupInfo(s2, chat.kind);
    assert EmitGroup(Bind(s, chat), chat.kind.group) == s2;
    assert Downloads(s3) == Downloads(s);
    GroupPhotoDownloads(s3, chat.id, chat.photo);
    var s4 := DownloadGroupPhoto(s3, chat.id, chat.photo);
    assert RecordChat(s, chat) == s4;
    TrackDownloads(s4, chat);
  }

  lemma TrackDownloads(s: State, chat: TdChat)
    requires !chat.kind.NotAGroup?
    ensures Downloads(Track(s, chat)) == Downloads(s)
  {
  }

  lemma GroupInfoDownloads(s: State, group: int, members: Members)
    ensures Downloads(BasicGroupInfoArrived(s, group, members)) == Downloads(s)
  {
    var s1 := WithGroup(s, group, StateOfGroup(s, group));
    var s2 := EmitGroup(s1, group);
    assert Downloads(s2) == Downloads(s);
    EmitAdminsDownloads(s2, StateOfGroup(s, group).chat, members);
  }

  lemma FileDownloads(s: State, f: File)
    ensures Downloads(FileArrived(s, f)) == if f.done then DownloadsEnded(s, f.id) else Downloads(s)
  {
    assert f.id !in s.pendingMessageFile ==> s.pendingMessageFile - {f.id} == s.pendingMessageFile;
  }

  lemma AuthorizationDownloads(s: State, auth: Authorization)
    ensures Downloads(AuthorizationChanged(s, auth)) == Downloads(s)
  {
  }

  lemma SupergroupDownloads(s: State, group: int, isChannel: bool)
    ensures Downloads(SupergroupChanged(s, group, isChannel)) == Downloads(s)
  {
  }

  lemma UpdateDownloads(s: State, u: Update)
    ensures Downloads(AfterUpdate(s, u)) == DownloadsAfter(s, Updated(u))
  {
    match u {
      case AuthorizationState(auth) => AuthorizationDownloads(s, auth);
      case User(user) => UserArrivedDownloads(s, user);
      case FileUpdate(f) => FileDownloads(s, f);
      case NewChat(_) => ChatDownloads(s, u);
      case ChatPhoto(_, _) => ChatDownloads(s, u);
      case NewMessage(m) => TopMessageDownloads(s, m);
      case DeleteMessages(chat, ids) => DeletesDownloads(s, chat, ids);
      case _ => PlainDownloads(s, u);
    }
  }

  lemma ChatDownloads(s: State, u: Update)
    requires u.NewChat? || u.ChatPhoto?
    ensures Downloads(AfterUpdate(s, u)) == DownloadsAfter(s, Updated(u))
  {
    if u.ChatPhoto? {
      GroupPhotoDownloads(s, u.chatId, u.photo);
    } else if !u.chat.kind.NotAGroup? {
      ChatArrivedDownloads(s, u.chat, true);
    }
  }

  lemma PlainDownloads(s: State, u: Update)
    requires u.UserFullInfo? || u.ChatTitle? || u.SupergroupUpdate? || u.SupergroupFullInfo? || u.BasicGroupFullInfo?
          || u.MessageEdited? || u.OtherUpdate?
    ensures Downloads(AfterUpdate(s, u)) == Downloads(s)
  {
    if u.SupergroupUpdate? {
      SupergroupDownloads(s, u.group, u.isChannel);
    } else if u.BasicGroupFullInfo? {
      GroupInfoDownloads(s, u.group, u.members);
    }
  }

  lemma AnswerDownloads(s: State, c: Cont, o: Object, e: Event)
    requires e.Answered? && e.o == o && Answers(s, e) == Some(c)
    ensures Downloads(Resume(Received(s, e), c, o)) == DownloadsAfter(s, e)
  {
    var s1 := Received(s, e);
    assert Downloads(s1) == Downloads(s);
    match c {
      case Alarm => PollDownloads(s1, 0, |s1.core.pollQueue|);
      case FetchReply(src, target, depth, root) =>
        if o.MessageObject? {
          ReplyFetchedDownloads(s1, src, target, depth, root, o.m);
        }
      case FetchEdited =>
        if o.MessageObject? {
          TopMessageDownloads(s1, o.m);
        }
      case FetchAdmins(chat) =>
        if o.MembersObject? {
          EmitAdminsDownloads(WithMisses(s1, s1.core.pollMiss - {chat}), chat, o.members);
        }
      case FetchChat =>
        if o.ChatObject? && !o.chat.kind.NotAGroup? {
          ChatArrivedDownloads(s1, o.chat, false);
        }
      case FetchUser =>
        if o.UserObject? {
          UserArrivedDownloads(s1, o.user);
        }
      case FetchInfo(_) =>
      case Ignore =>
    }
  }

  /**
   The downloads in flight after an event: a file that is missing is waited for by whoever came with it last, and
   a finished one by nobody it has been stored for.
   */
  lemma StepDownloads(s: State, e: Event)
    ensures Downloads(Step(s, e)) == DownloadsAfter(s, e)
  {
    if e.Updated? {
      UpdateDownloads(s, e.u);
    } else if e.Answered? && e.id in s.handlers {
      AnswerDownloads(s, s.handlers[e.id], e.o, e);
    }
  }
}
