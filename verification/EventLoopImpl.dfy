/**
 TDLib::Impl: the fields and methods of the source.  Every method takes the state to the value of the
 corresponding function of module EventLoop, and so the object as a whole stays valid: whatever arrives,
 the invariants proved about those functions hold of its fields.
 */
module EventLoopImpl {
  import opened Common
  import opened Models
  import opened EventLoop
  import opened EventLoopView
  import opened EventLoopEffects
  import opened EventLoopProtocols
  import opened EventTraffic
  import opened EventAnswers
  import opened EventScript
  import opened AdminPolling

  /** Everything that holds between two events. */
  ghost predicate Sound(s: State) {
    Asked(s) && Invariant(ViewOf(s)) && ScriptInv(s) && Tracking(s.core)
  }

  lemma StartIsSound(pollEnabled: bool, batch: nat)
    ensures Sound(Start(pollEnabled, batch))
  {
    StartSound(pollEnabled, batch);
    StartScripted(pollEnabled, batch);
    StartAsked(pollEnabled, batch);
  }

  lemma SoundKept(s: State, e: Event)
    requires Sound(s) && Plausible(s, e)
    ensures Sound(Step(s, e))
  {
    AskedIsFresh(s);
    StepKeepsAsked(s, e);
    StepMoves(s, e);
    var f :| Possible(ViewOf(s), f) && ViewOf(Step(s, e)) == After(ViewOf(s), f);
    InvariantKept(ViewOf(s), f);
    StepKeepsScript(s, e);
    StepEvicts(s, e);
  }

  lemma EventProcessed(s: State, e: Event)
    ensures Sound(s) && Plausible(s, e) ==> Sound(Step(s, e))
    ensures Sound(s) && Plausible(s, e) && e.Answered? ==> e.id !in Step(s, e).handlers
  {
    if Sound(s) && Plausible(s, e) {
      SoundKept(s, e);
      if e.Answered? && e.id in s.handlers {
        AnswerKeeps(s, e.id, e.o);
      }
    }
  }

  class Impl {
    const pollEnabled: bool
    const batch: nat

    var handlers: map<nat, Cont>
    var queryId: nat
    var authorized: bool
    var stopped: bool
    var closing: bool

    var users: set<int>
    var supergroups: map<int, bool>
    var groups: map<int, GroupState>
    var chatGroup: map<int, int>
    var pendingPhoto: map<int, int>
    var pendingGroupPhoto: map<int, int>
    var pendingMessageFile: map<int, Key>
    var resolved: set<Key>

    var pollStarted: bool
    var pollSet: set<int>
    var pollQueue: seq<int>
    var pollMiss: map<int, nat>

    var sent: seq<Query>
    var script: seq<Emission>
    var replies: seq<(Key, Key)>                 // history
    var roots: nat                               // history

    ghost function Value(): State
      reads this
    {
      var core := Core(
        pollEnabled, batch, authorized, stopped, closing, groups, chatGroup, pollStarted, pollSet, pollQueue, pollMiss,
        resolved, replies, roots);
      State(
        core, handlers, queryId, users, supergroups, pendingPhoto, pendingGroupPhoto, pendingMessageFile, sent, script)
    }

    ghost predicate Valid()
      reads this
    {
      Sound(Value())
    }

    /** What a valid object promises of its fields. */
    lemma ValidMeans()
      requires Valid()
      ensures forall a, b :: a in handlers && b in handlers && handlers[a].Alarm? && handlers[b].Alarm? ==> a == b
      ensures forall i, j :: 0 <= i < j < |pollQueue| ==> pollQueue[i] != pollQueue[j]
      ensures forall chat <- pollSet :: chat in pollQueue && chat in chatGroup && chatGroup[chat] in groups
      ensures |resolved| <= REPLY_DEDUP_CAP && queryId + 1 !in handlers && queryId == |sent|
      ensures forall id <- handlers :: 1 <= id <= |sent| && Fits(chatGroup, sent[id - 1], handlers[id])
    {
      ghost var v := ViewOf(Value());
      assert forall a :: a in handlers && handlers[a].Alarm? ==> IsAlarm(v, a);
      assert forall chat <- pollQueue :: Pollable(v.core, chat);
    }

    constructor (intervalSeconds: real, batch: int)
      ensures Valid()
      ensures Value() == Start(intervalSeconds > 0.0, if batch > 0 then batch else 1)
    {
      this.pollEnabled, this.batch := intervalSeconds > 0.0, if batch > 0 then batch else 1;
      handlers, queryId, authorized, stopped, closing := map[], 1, false, false, false;
      users, supergroups, groups, chatGroup := {}, map[], map[], map[];
      pendingPhoto, pendingGroupPhoto, pendingMessageFile, resolved := map[], map[], map[], {};
      pollStarted, pollSet, pollQueue, pollMiss := false, {}, [], map[];
      sent, script, replies, roots := [OtherQuery], [], [], 0;
      new;
      StartIsSound(pollEnabled, this.batch);
    }

    // -------------------------------------------------------------- queries and jobs

    method Send(q: Query, cont: Option<Cont>)
      modifies this
      ensures Value() == SendQuery(old(Value()), q, cont)
      ensures (forall id <- old(handlers) :: id <= old(queryId)) ==> queryId !in old(handlers)
    {
      queryId := queryId + 1;
      sent := sent + [q];
      if cont.Some? {
        handlers := handlers[queryId := cont.value];
      }
    }

    method Post(e: Emission)
      modifies this
      ensures Value() == Emit(old(Value()), e)
    {
      script := script + [e];
    }

    method PostGroup(group: int)
      modifies this
      ensures Value() == EmitGroup(old(Value()), group)
    {
      if group !in groups || !groups[group].seen {
        return;
      }
      Post(ToSerial(Save(GroupRow(groups[group].chat))));
    }

    // -------------------------------------------------------------- entities and files

    method EnsureUserSaved(user: int)
      modifies this
      ensures Value() == EnsureUser(old(Value()), user)
      ensures script == old(script) + if user != 0 && user in users then [ToSerial(Save(UserRow(user)))] else []
    {
      if user == 0 {
        return;
      }
      if user in users {
        Post(ToSerial(Save(UserRow(user))));
        return;
      }
      Send(GetUser(user), Some(FetchUser));
    }

    method EnsureChatSaved(chat: int)
      modifies this
      ensures Value() == EnsureChat(old(Value()), chat)
    {
      if chat == 0 {
        return;
      }
      if IsPrivate(chat) {
        return;
      }
      if chat in chatGroup {
        PostGroup(chatGroup[chat]);
        return;
      }
      Send(GetChat(chat), Some(FetchChat));
    }

    method ResolveForwardOrigin(m: TdMessage)
      modifies this
      ensures Value() == ResolveOrigin(old(Value()), m)
    {
      if m.originUser.Some? {
        EnsureUserSaved(m.originUser.value);
      }
      if m.originChat.Some? {
        EnsureChatSaved(m.originChat.value);
      }
    }

    method EnsureMessageEntities(m: TdMessage)
      modifies this
      ensures Value() == EnsureEntities(old(Value()), m)
    {
      if IsPrivate(m.chat) {
        EnsureUserSaved(m.chat);
      } else {
        EnsureChatSaved(m.chat);
      }
      match m.sender {
        case UserSender(user) => EnsureUserSaved(user);
        case ChatSender(chat) => EnsureChatSaved(chat);
        case NoSender =>
      }
    }

    method MaybeDownloadMessageFile(m: TdMessage)
      modifies this
      ensures Value() == DownloadMessageFile(old(Value()), m)
    {
      if m.file.None? {
        return;
      }
      if m.file.value.done {
        Post(ToFiles(StoreFile(m.Row())));
        return;
      }
      pendingMessageFile := pendingMessageFile[m.file.value.id := m.Key()];
      Send(Download(m.file.value.id), None);
    }

    method MaybeDownloadGroupPhoto(chat: int, photo: Option<File>)
      modifies this
      ensures Value() == DownloadGroupPhoto(old(Value()), chat, photo)
    {
      if photo.None? {
        return;
      }
      if photo.value.done {
        Post(ToFiles(StoreFile(GroupRow(chat))));
        return;
      }
      pendingGroupPhoto := pendingGroupPhoto[photo.value.id := chat];
      Send(Download(photo.value.id), None);
    }

    method MaybeDownloadProfilePhoto(u: TdUser)
      modifies this
      ensures Value() == DownloadProfilePhoto(old(Value()), u)
    {
      if u.photo.None? {
        return;
      }
      if u.photo.value.done {
        Post(ToFiles(StoreFile(UserRow(u.id))));
        return;
      }
      pendingPhoto := pendingPhoto[u.photo.value.id := u.id];
      Send(Download(u.photo.value.id), None);
    }

    method HandleFileUpdate(f: File)
      modifies this
      ensures Value() == FileArrived(old(Value()), f)
    {
      if !f.done {
        return;
      }
      ghost var before := Value();
      if f.id in pendingPhoto {
        var user := pendingPhoto[f.id];
        pendingPhoto := pendingPhoto - {f.id};
        assert Value() == WithPhotos(before, before.pendingPhoto - {f.id});
        Post(ToFiles(StoreFile(UserRow(user))));
        return;
      }
      if f.id in pendingGroupPhoto {
        var chat := pendingGroupPhoto[f.id];
        pendingGroupPhoto := pendingGroupPhoto - {f.id};
        assert Value() == WithGroupPhotos(before, before.pendingGroupPhoto - {f.id});
        Post(ToFiles(StoreFile(GroupRow(chat))));
        return;
      }
      if f.id in pendingMessageFile {
        var key := pendingMessageFile[f.id];
        pendingMessageFile := pendingMessageFile - {f.id};
        assert Value() == WithMessageFiles(before, before.pendingMessageFile - {f.id});
        Post(ToFiles(StoreFile(MessageRow(key.0, key.1))));
      }
    }

    method SaveUser(u: TdUser)
      modifies this
      ensures Value() == UserArrived(old(Value()), u)
      ensures users == old(users) + {u.id}
    {
      Post(ToSerial(Save(UserRow(u.id))));
      MaybeDownloadProfilePhoto(u);
      users := users + {u.id};
    }

    // -------------------------------------------------------------- messages and replies

    method ResolveReplyMessage(m: TdMessage, depth: nat, root: nat)
      modifies this
      ensures Value() == ResolveReply(old(Value()), m, depth, root)
    {
      var reply := m.ReplyTarget();
      if reply.None? {
        return;
      }
      var target := reply.value;
      replies := replies + [(m.Key(), target)];
      if target in resolved || depth >= MAX_REPLY_DEPTH {
        Post(LinkJob(m.Key(), target, if target in resolved then AlreadySaved else DepthCap));
        return;
      }
      Send(GetReplied(target, depth, root), Some(FetchReply(m.Key(), target, depth, root)));
    }

    method HandleMessageAt(m: TdMessage, depth: nat, root: nat)
      modifies this
      ensures Value() == HandleMessage(old(Value()), m, depth, root)
    {
      ResolveForwardOrigin(m);
      Post(ToSerial(Save(m.Row())));
      MaybeDownloadMessageFile(m);
      ResolveReplyMessage(m, depth, root);
    }

    method NextRoot() returns (root: nat)
      modifies this
      ensures root == old(roots) && Value() == WithRoot(old(Value()))
    {
      root := roots;
      roots := roots + 1;
    }

    method HandleMessageFromTop(m: TdMessage)
      modifies this
      ensures Value() == HandleTopMessage(old(Value()), m)
    {
      var root := NextRoot();
      HandleMessageAt(m, 0, root);
    }

    method MarkReplyResolved(target: Key)
      modifies this
      ensures Value() == MarkResolved(old(Value()), target)
      ensures target in resolved && (old(|resolved|) <= REPLY_DEDUP_CAP ==> |resolved| <= REPLY_DEDUP_CAP)
      ensures old(|resolved|) < REPLY_DEDUP_CAP ==> old(resolved) <= resolved
    {
      if |resolved| >= REPLY_DEDUP_CAP {
        resolved := {};
      }
      resolved := resolved + {target};
    }

    method OnReplyFetched(src: Key, target: Key, depth: nat, root: nat, o: Object)
      modifies this
      ensures Value() == ReplyArrived(old(Value()), FetchReply(src, target, depth, root), o)
    {
      if !o.MessageObject? {
        Post(LinkJob(src, target, Unavailable));
        return;
      }
      MarkReplyResolved(target);
      EnsureMessageEntities(o.m);
      HandleMessageAt(o.m, depth + 1, root);
      Post(LinkJob(src, target, Fetched));
    }

    method HandleDeleteMessages(chat: int, ids: seq<int>)
      modifies this
      ensures Value() == EmitDeletes(old(Value()), chat, ids)
      ensures script == old(script) + seq(|ids|, i requires 0 <= i < |ids| => ToSerial(Delete(chat, ids[i])))
    {
      for i := 0 to |ids|
        invariant script == old(script) + seq(i, j requires 0 <= j < i => ToSerial(Delete(chat, ids[j])))
        invariant Value() == EmitDeletes(old(Value()), chat, ids[..i])
      {
        assert ids[..i + 1][..i] == ids[..i];
        Post(ToSerial(Delete(chat, ids[i])));
      }
      assert ids[..|ids|] == ids;
    }

    // -------------------------------------------------------------- administrators

    method EmitGroupAdmins(chat: int, members: Members)
      modifies this
      ensures Value() == EmitAdmins(old(Value()), chat, members)
      ensures exists admins ::
        AllAdmins(members, admins) && script == old(script) + AdminJobs(old(Value()), chat, admins)
    {
      ghost var before := Value();
      var admins := [];
      for i := 0 to |members|
        invariant Value() == EnsureAdmins(old(Value()), members[..i])
        invariant admins == AdminsIn(members[..i])
      {
        assert members[..i + 1][..i] == members[..i];
        if members[i].Some? {
          EnsureUserSaved(members[i].value.userId);
          admins := admins + [members[i].value];
        }
      }
      assert members[..|members|] == members;
      if admins != [] {
        Post(ToSerial(SyncAdmins(chat, admins)));
      }
      EmitAdminsDoes(before, chat, members);
      ghost var at := AdminsInPicks(members);
    }

    method FetchGroupAdmins(group: int, chat: int)
      modifies this
      ensures Value() == RequestAdmins(old(Value()), group, chat)
    {
      Send(GetMembers(group, chat), Some(FetchAdmins(chat)));
    }

    method CountMiss(chat: int)
      modifies this
      ensures Value() == old(Value()).(core := MissCounted(old(Value()).core, chat))
      ensures chat in pollMiss && (pollMiss[chat] < ADMIN_POLL_MAX_MISS ==> pollSet == old(pollSet))
      ensures chat in pollMiss && (pollMiss[chat] >= ADMIN_POLL_MAX_MISS ==> pollSet == old(pollSet) - {chat})
    {
      pollMiss := pollMiss[chat := (if chat in pollMiss then pollMiss[chat] else 0) + 1];
      if pollMiss[chat] >= ADMIN_POLL_MAX_MISS {
        pollSet := pollSet - {chat};
      }
    }

    method OnAdminsFetched(chat: int, o: Object)
      modifies this
      ensures Value() == AdminsArrived(old(Value()), chat, o)
    {
      if !o.MembersObject? {
        if IsDenial(o) {
          CountMiss(chat);
        }
        return;
      }
      pollMiss := pollMiss - {chat};
      EmitGroupAdmins(chat, o.members);
    }

    method ArmAdminAlarm()
      modifies this
      ensures Value() == ArmAlarm(old(Value()))
    {
      Send(SetAlarm, Some(Alarm));
    }

    method PollAdminBatch()
      modifies this
      ensures Value() == Poll(old(Value()), 0, |old(pollQueue)|)
    {
      var polled: nat, scan: nat := 0, |pollQueue|;
      while polled < batch && scan > 0 && pollQueue != []
        invariant Poll(Value(), polled, scan) == Poll(old(Value()), 0, |old(pollQueue)|)
        decreases scan
      {
        var chat := pollQueue[0];
        pollQueue := pollQueue[1..];
        scan := scan - 1;
        if chat !in pollSet {
          continue;
        }
        pollQueue := pollQueue + [chat];
        if chat !in chatGroup {
          continue;
        }
        var group := chatGroup[chat];
        if group !in groups {
          continue;
        }
        if groups[group].kind == BasicGroup {
          Send(GetBasicGroupInfo(group), None);
        } else {
          FetchGroupAdmins(group, chat);
        }
        polled := polled + 1;
      }
    }

    method OnAdminAlarm()
      modifies this
      ensures Value() == AlarmRang(old(Value()))
      ensures old(stopped || closing) ==> sent == old(sent) && handlers == old(handlers)
    {
      if stopped || closing {
        return;
      }
      if authorized {
        PollAdminBatch();
      }
      ArmAdminAlarm();
    }

    // -------------------------------------------------------------- groups

    /** group_state_[group] = st */
    method SetGroup(group: int, st: GroupState)
      modifies this
      ensures Value() == WithGroup(old(Value()), group, st)
    {
      groups := groups[group := st];
    }

    /** chat_to_group_[chat] = group */
    method SetChatGroup(chat: int, group: int)
      modifies this
      ensures Value() == WithChat(old(Value()), chat, group)
    {
      chatGroup := chatGroup[chat := group];
    }

    /** supergroups_[group] = info */
    method SetSupergroup(group: int, isChannel: bool)
      modifies this
      ensures Value() == WithSupergroup(old(Value()), group, isChannel)
    {
      supergroups := supergroups[group := isChannel];
    }

    method HandleNewChat(chat: TdChat, fromChatList: bool)
      modifies this
      ensures Value() == ChatArrived(old(Value()), chat, fromChatList)
    {
      if chat.kind.NotAGroup? {
        return;
      }
      var group := chat.kind.group;
      var firstSight := group !in groups;
      RecordNewChat(chat);
      if fromChatList && firstSight && chat.id !in pollSet {
        TrackChat(chat);
      }
    }

    method TrackChat(chat: TdChat)
      requires !chat.kind.NotAGroup?
      modifies this
      ensures Value() == Track(old(Value()), chat)
      ensures chat.id in pollSet && pollQueue == old(pollQueue) + [chat.id]
    {
      pollSet := pollSet + {chat.id};
      pollQueue := pollQueue + [chat.id];
      if chat.kind.IsSupergroup? {
        FetchGroupAdmins(chat.kind.group, chat.id);
      }
    }

    method RecordNewChat(chat: TdChat)
      requires !chat.kind.NotAGroup?
      modifies this
      ensures Value() == RecordChat(old(Value()), chat)
    {
      var group := chat.kind.group;
      var kind := if chat.kind.IsBasicGroup? then BasicGroup else if chat.kind.isChannel then Channel else Supergroup;
      var merged := kind;
      if group in supergroups && supergroups[group] {
        merged := Channel;
      }
      SetGroup(group, GroupState(merged, chat.id, true));
      SetChatGroup(chat.id, group);
      PostGroup(group);
      if chat.kind.IsBasicGroup? {
        Send(GetBasicGroupInfo(group), None);
      } else {
        Send(GetSupergroupInfo(group), None);
      }
      MaybeDownloadGroupPhoto(chat.id, chat.photo);
    }

    method OnBasicGroupFullInfo(group: int, members: Members)
      modifies this
      ensures Value() == AfterUpdate(old(Value()), BasicGroupFullInfo(group, members))
    {
      if group !in groups {
        groups := groups[group := GroupState(BasicGroup, 0, false)];
      }
      var st := groups[group];
      assert Value() == WithGroup(old(Value()), group, StateOfGroup(old(Value()), group));
      if !st.seen {
        return;
      }
      PostGroup(group);
      if st.chat in pollSet {
        EmitGroupAdmins(st.chat, members);
      }
    }

    // -------------------------------------------------------------- dispatch

    method OnReady()
      modifies this
      ensures Value() == AuthorizationChanged(old(Value()), Ready)
    {
      ghost var before := Value();
      authorized := true;
      assert Value() == WithAuthorized(before, true);
      Send(OtherQuery, Some(Ignore));
      if !pollStarted && pollEnabled {
        ghost var sent := Value();
        pollStarted := true;
        assert Value() == WithPollStarted(sent);
        ArmAdminAlarm();
      }
    }

    method OnAuthorizationStateUpdate(auth: Authorization)
      modifies this
      ensures Value() == AfterUpdate(old(Value()), AuthorizationState(auth))
    {
      match auth {
        case Asking => Send(OtherQuery, Some(Ignore));
        case Ready => OnReady();
        case LoggingOut => authorized := false;
        case Closing =>
        case Closed => authorized, stopped := false, true;
      }
    }

    method OnChatTitle(chat: int)
      modifies this
      ensures Value() == AfterUpdate(old(Value()), ChatTitle(chat))
    {
      if chat in chatGroup {
        PostGroup(chatGroup[chat]);
      }
    }

    method OnChatPhoto(chat: int, photo: Option<File>)
      modifies this
      ensures Value() == AfterUpdate(old(Value()), ChatPhoto(chat, photo))
    {
      if chat in chatGroup {
        MaybeDownloadGroupPhoto(chat, photo);
      }
    }

    method OnUser(user: TdUser)
      modifies this
      ensures Value() == AfterUpdate(old(Value()), User(user))
    {
      var firstSeen := user.id !in users;
      SaveUser(user);
      if firstSeen {
        Send(GetUserInfo(user.id), Some(FetchInfo(user.id)));
      }
    }

    method OnSupergroup(group: int, isChannel: bool)
      modifies this
      ensures Value() == AfterUpdate(old(Value()), SupergroupUpdate(group, isChannel))
    {
      SetSupergroup(group, isChannel);
      if group !in groups {
        return;
      }
      SetGroup(group, groups[group].(kind := if isChannel then Channel else Supergroup));
      PostGroup(group);
    }

    method OnSupergroupFullInfo(group: int)
      modifies this
      ensures Value() == AfterUpdate(old(Value()), SupergroupFullInfo(group))
    {
      if group !in groups {
        groups := groups[group := GroupState(BasicGroup, 0, false)];
      }
      assert Value() == WithGroup(old(Value()), group, StateOfGroup(old(Value()), group));
      if groups[group].seen {
        PostGroup(group);
      }
    }

    method ProcessUpdate(u: Update)
      modifies this
      ensures Value() == AfterUpdate(old(Value()), u)
    {
      match u {
        case AuthorizationState(auth) => OnAuthorizationStateUpdate(auth);
        case User(user) => OnUser(user);
        case UserFullInfo(user) => Post(ToSerial(SaveInfo(user)));
        case FileUpdate(f) => HandleFileUpdate(f);
        case NewChat(chat) => HandleNewChat(chat, true);
        case ChatTitle(chat) => OnChatTitle(chat);
        case ChatPhoto(chat, photo) => OnChatPhoto(chat, photo);
        case SupergroupUpdate(group, isChannel) => OnSupergroup(group, isChannel);
        case SupergroupFullInfo(group) => OnSupergroupFullInfo(group);
        case BasicGroupFullInfo(group, members) => OnBasicGroupFullInfo(group, members);
        case NewMessage(m) => HandleMessageFromTop(m);
        case MessageEdited(key) => Send(GetEdited(key), Some(FetchEdited));
        case DeleteMessages(chat, ids) => HandleDeleteMessages(chat, ids);
        case OtherUpdate =>
      }
    }

    /** The call of a stored handler. */
    method RunHandler(c: Cont, o: Object)
      modifies this
      ensures Value() == Resume(old(Value()), c, o)
    {
      match c {
        case Alarm => OnAdminAlarm();
        case FetchReply(src, target, depth, root) => OnReplyFetched(src, target, depth, root, o);
        case FetchEdited =>
          if o.MessageObject? {
            HandleMessageFromTop(o.m);
          }
        case FetchAdmins(chat) => OnAdminsFetched(chat, o);
        case FetchChat =>
          if o.ChatObject? {
            HandleNewChat(o.chat, false);
          }
        case FetchUser =>
          if o.UserObject? {
            SaveUser(o.user);
          }
        case FetchInfo(user) =>
          if o.UserInfoObject? {
            Post(ToSerial(SaveInfo(user)));
          }
        case Ignore =>
      }
    }

    /** Updates carry the request id 0, answers that of their query. */
    method ProcessResponse(e: Event)
      requires !e.CloseRequested?
      modifies this
      ensures Value() == Step(old(Value()), e)
      ensures old(Valid() && Plausible(Value(), e)) ==> Valid()
      ensures old(Valid() && Plausible(Value(), e)) && e.Answered? ==> e.id !in handlers
      ensures e.Answered? && e.id !in old(handlers) ==> Value() == old(Value())
    {
      ghost var before := Value();
      match e {
        case Updated(u) => ProcessUpdate(u);
        case Answered(id, o) =>
          if id in handlers {
            var handler := handlers[id];
            handlers := handlers - {id};
            RunHandler(handler, o);
          }
      }
      EventProcessed(before, e);
    }

    method Close()
      modifies this
      ensures Value() == Step(old(Value()), CloseRequested)
      ensures closing && (old(Valid()) ==> Valid())
    {
      ghost var before := Value();
      closing := true;
      Send(OtherQuery, None);
      EventProcessed(before, CloseRequested);
    }
  }
}
