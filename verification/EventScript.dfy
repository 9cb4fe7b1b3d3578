/**
 The jobs that the event loop emits: on every run each job comes after the saves of the rows it names,
 and no administrator list is synced empty.
 */
module EventScript {
  import opened Common
  import opened Models
  import opened EventLoop
  import opened EventLoopView
  import opened EventLoopEffects
  import opened EventLoopProtocols
  import EventTraffic
  import opened EventAnswers

  predicate Saved(script: seq<Emission>, row: Entity) {
    ToSerial(Save(row)) in script
  }

  predicate SavedKey(script: seq<Emission>, key: Key) {
    Saved(script, MessageRow(key.0, key.1))
  }

  ghost predicate NoEmptySync(script: seq<Emission>) {
    forall e <- script :: e.ToSerial? && e.job.SyncAdmins? ==> e.job.admins != []
  }

  // ---------------------------------------------------------------- entities

  /** The loop knows the user or group, and so has saved it: the caches of users_ and chat_to_group_. */
  predicate Cached(s: State, row: Entity) {
    match row
    case UserRow(user) => user in s.users
    case GroupRow(chat) => chat in s.core.chatGroup
    case MessageRow(_, _) => false
  }

  /** A group that was seen belongs to a known chat. */
  ghost predicate GroupsBound(c: Core) {
    forall g <- c.groups :: c.groups[g].seen ==> c.groups[g].chat in c.chatGroup
  }

  /** Users and groups have been saved exactly if they are known. */
  ghost predicate CachesExact(s: State) {
    forall row: Entity :: !row.MessageRow? ==> (Saved(s.script, row) <==> Cached(s, row))
  }

  /** The query was answered, or never stored a continuation. */
  predicate Spent(s: State, id: nat) {
    id <= s.queryId && id !in s.handlers
  }

  // ---------------------------------------------------------------- invariants

  /** The script so far is in order, and so will be what downloads and reply fetches in flight emit. */
  ghost predicate Scripted(s: State) {
    && FromLoop(s.script) && WellOrdered(s.script) && NoEmptySync(s.script) && GroupsBound(s.core)
    && (forall f <- s.pendingPhoto :: Saved(s.script, UserRow(s.pendingPhoto[f])))
    && (forall f <- s.pendingGroupPhoto :: Saved(s.script, GroupRow(s.pendingGroupPhoto[f])))
    && (forall f <- s.pendingMessageFile :: SavedKey(s.script, s.pendingMessageFile[f]))
    && (forall id <- s.handlers :: InFlight(s, s.handlers[id]))
  }

  /** A reply is fetched for a saved message, administrators for a known chat. */
  ghost predicate InFlight(s: State, c: Cont) {
    && (c.FetchReply? ==> SavedKey(s.script, c.src))
    && (c.FetchAdmins? ==> c.chat in s.core.chatGroup)
  }

  ghost predicate ResolvedSaved(s: State) {
    forall key <- s.core.resolved :: SavedKey(s.script, key)
  }

  /** Spent queries stay spent. */
  ghost predicate Later(s: State, s': State) {
    forall id :: Spent(s, id) ==> Spent(s', id)
  }

  /** Saves stay in the script, new ones of users and groups are of known ones, and the caches are as before. */
  ghost predicate Grows(s: State, s': State) {
    && s'.core.chatGroup == s.core.chatGroup && s'.core.resolved == s.core.resolved && s'.users == s.users
    && (forall row :: Saved(s.script, row) ==> Saved(s'.script, row))
    && (forall row :: Saved(s'.script, row) && !row.MessageRow? ==> Saved(s.script, row) || Cached(s, row))
    && Later(s, s')
  }

  ghost predicate Keeps(s: State, s': State) {
    Scripted(s) ==> Scripted(s') && Grows(s, s')
  }

  ghost predicate ScriptInv(s: State) {
    Scripted(s) && ResolvedSaved(s) && CachesExact(s)
  }

  lemma KeepsInv(s: State, s': State)
    requires ScriptInv(s) && Keeps(s, s')
    ensures ScriptInv(s') && Later(s, s')
  {
    CachesStayExact(s, s');
  }

  // ---------------------------------------------------------------- queries and jobs

  predicate Postable(e: Emission) {
    e.ToSerial? ==> !e.job.LinkFile? && (e.job.SyncAdmins? ==> e.job.admins != [])
  }

  lemma KeepsTrans(a: State, b: State, c: State)
    requires Keeps(a, b) && Keeps(b, c)
    ensures Keeps(a, c)
  {
    assert forall row :: Scripted(a) ==> (Cached(b, row) <==> Cached(a, row));
  }

  /** Flags, the poll queue and the history are no part of it. */
  lemma WithCoreKeeps(s: State, c: Core)
    requires c.groups == s.core.groups && c.chatGroup == s.core.chatGroup && c.resolved == s.core.resolved
    ensures Keeps(s, s.(core := c))
  {
  }

  lemma WithSupergroupKeeps(s: State, group: int, isChannel: bool)
    ensures Keeps(s, WithSupergroup(s, group, isChannel))
  {
  }

  lemma WithoutHandlerKeeps(s: State, id: nat)
    ensures Keeps(s, WithHandlers(s, s.handlers - {id}))
  {
  }

  predicate IsSave(e: Emission) {
    e.ToSerial? && e.job.Save?
  }

  /** The saves after an emission. */
  lemma EmitSaves(script: seq<Emission>, e: Emission)
    ensures e in script + [e]
    ensures forall row :: Saved(script + [e], row) <==> Saved(script, row) || e == ToSerial(Save(row))
  {
    assert (script + [e])[|script|] == e;
  }

  lemma EmitKeeps(s: State, e: Emission)
    requires Postable(e) && Grounded(e, s.script)
    requires IsSave(e) ==> e.job.row.MessageRow? || Cached(s, e.job.row)
    ensures Keeps(s, Emit(s, e)) && e in Emit(s, e).script
  {
    EmitSaves(s.script, e);
    if Scripted(s) {
      WellOrderedSnoc(s.script, e);
    }
  }

  lemma SendKeeps(s: State, q: Query, cont: Option<Cont>)
    requires cont.Some? ==> InFlight(s, cont.value)
    ensures Keeps(s, SendQuery(s, q, cont))
  {
  }

  lemma SaveKeeps(s: State, row: Entity)
    requires row.MessageRow? || Cached(s, row)
    ensures var s' := Emit(s, ToSerial(Save(row))); Keeps(s, s') && Saved(s'.script, row)
  {
    EmitKeeps(s, ToSerial(Save(row)));
  }

  lemma EmitGroupKeeps(s: State, group: int)
    ensures Keeps(s, EmitGroup(s, group))
  {
    if Scripted(s) && group in s.core.groups && s.core.groups[group].seen {
      SaveKeeps(s, GroupRow(s.core.groups[group].chat));
    }
  }

  // ---------------------------------------------------------------- entities and files

  lemma EnsureUserKeeps(s: State, user: int)
    ensures Keeps(s, EnsureUser(s, user))
  {
    if user != 0 {
      if user in s.users {
        SaveKeeps(s, UserRow(user));
      } else {
        SendKeeps(s, GetUser(user), Some(FetchUser));
      }
    }
  }

  lemma EnsureChatKeeps(s: State, chat: int)
    ensures Keeps(s, EnsureChat(s, chat))
  {
    if chat != 0 && !IsPrivate(chat) {
      if chat in s.core.chatGroup {
        EmitGroupKeeps(s, s.core.chatGroup[chat]);
      } else {
        SendKeeps(s, GetChat(chat), Some(FetchChat));
      }
    }
  }

  lemma ResolveOriginKeeps(s: State, m: TdMessage)
    ensures Keeps(s, ResolveOrigin(s, m))
  {
    var s1 := if m.originUser.Some? then EnsureUser(s, m.originUser.value) else s;
    if m.originUser.Some? {
      EnsureUserKeeps(s, m.originUser.value);
    }
    if m.originChat.Some? {
      EnsureChatKeeps(s1, m.originChat.value);
    }
  }

  lemma EnsureEntitiesKeeps(s: State, m: TdMessage)
    ensures Keeps(s, EnsureEntities(s, m))
  {
    var s1 := if IsPrivate(m.chat) then EnsureUser(s, m.chat) else EnsureChat(s, m.chat);
    EnsureUserKeeps(s, m.chat);
    EnsureChatKeeps(s, m.chat);
    match m.sender {
      case NoSender =>
      case UserSender(user) => EnsureUserKeeps(s1, user);
      case ChatSender(chat) => EnsureChatKeeps(s1, chat);
    }
  }

  lemma DownloadMessageFileKeeps(s: State, m: TdMessage)
    requires Saved(s.script, m.Row())
    ensures Keeps(s, DownloadMessageFile(s, m))
  {
    if m.file.Some? {
      var f := m.file.value;
      if f.done {
        EmitKeeps(s, ToFiles(StoreFile(m.Row())));
      } else {
        SendKeeps(WithMessageFiles(s, s.pendingMessageFile[f.id := m.Key()]), Download(f.id), None);
      }
    }
  }

  lemma DownloadGroupPhotoKeeps(s: State, chat: int, photo: Option<File>)
    requires Saved(s.script, GroupRow(chat))
    ensures Keeps(s, DownloadGroupPhoto(s, chat, photo))
  {
    if photo.Some? {
      var f := photo.value;
      if f.done {
        EmitKeeps(s, ToFiles(StoreFile(GroupRow(chat))));
      } else {
        SendKeeps(WithGroupPhotos(s, s.pendingGroupPhoto[f.id := chat]), Download(f.id), None);
      }
    }
  }

  lemma DownloadProfilePhotoKeeps(s: State, u: TdUser)
    requires Saved(s.script, UserRow(u.id))
    ensures Keeps(s, DownloadProfilePhoto(s, u))
  {
    if u.photo.Some? {
      var f := u.photo.value;
      if f.done {
        EmitKeeps(s, ToFiles(StoreFile(UserRow(u.id))));
      } else {
        SendKeeps(WithPhotos(s, s.pendingPhoto[f.id := u.id]), Download(f.id), None);
      }
    }
  }

  lemma WithUserKeeps(s: State, user: int)
    requires Scripted(s)
    ensures Scripted(WithUser(s, user)) && Later(s, WithUser(s, user))
  {
  }

  /** The user may as well be entered into the cache first. */
  lemma UserArrivedOrder(s: State, u: TdUser)
    ensures UserArrived(s, u) == DownloadProfilePhoto(Emit(WithUser(s, u.id), ToSerial(Save(UserRow(u.id)))), u)
  {
    var e := ToSerial(Save(UserRow(u.id)));
    var s1 := Emit(s, e);
    assert Emit(WithUser(s, u.id), e) == WithUser(s1, u.id);
    DownloadThenUser(s1, u);
  }

  lemma DownloadThenUser(s: State, u: TdUser)
    ensures WithUser(DownloadProfilePhoto(s, u), u.id) == DownloadProfilePhoto(WithUser(s, u.id), u)
  {
    if u.photo.Some? {
      var f, s1 := u.photo.value, WithUser(s, u.id);
      var pending := s.pendingPhoto[f.id := u.id];
      assert !f.done ==> WithPhotos(s1, pending) == WithUser(WithPhotos(s, pending), u.id);
    }
  }

  lemma UserCachesExact(s: State, s2: State, user: int)
    requires CachesExact(s) && ResolvedSaved(s) && Grows(WithUser(s, user), s2) && Saved(s2.script, UserRow(user))
    ensures CachesExact(s2) && ResolvedSaved(s2) && Later(s, s2)
  {
    var s0 := WithUser(s, user);
    forall row: Entity | !row.MessageRow?
      ensures Saved(s2.script, row) <==> Cached(s2, row)
    {
      assert Cached(s0, row) <==> Cached(s, row) || row == UserRow(user);
    }
    assert forall id :: Spent(s, id) <==> Spent(s0, id);
  }

  /** The user is saved, and known from then on. */
  lemma UserArrivedKeeps(s: State, u: TdUser)
    requires ScriptInv(s)
    ensures ScriptInv(UserArrived(s, u)) && Later(s, UserArrived(s, u))
  {
    var s0 := WithUser(s, u.id);
    var s1 := Emit(s0, ToSerial(Save(UserRow(u.id))));
    var s2 := DownloadProfilePhoto(s1, u);
    WithUserKeeps(s, u.id);
    SaveKeeps(s0, UserRow(u.id));
    DownloadProfilePhotoKeeps(s1, u);
    KeepsTrans(s0, s1, s2);
    UserCachesExact(s, s2, u.id);
    UserArrivedOrder(s, u);
  }

  /** A download that ends is forgotten, and its file is stored. */
  lemma DownloadEndKeeps(s: State, s1: State, row: Entity)
    requires Keeps(s, s1) && s1.script == s.script && Saved(s.script, row)
    ensures Keeps(s, Emit(s1, ToFiles(StoreFile(row))))
  {
    EmitKeeps(s1, ToFiles(StoreFile(row)));
    KeepsTrans(s, s1, Emit(s1, ToFiles(StoreFile(row))));
  }

  lemma WithPhotosKeeps(s: State, f: int)
    ensures Keeps(s, WithPhotos(s, s.pendingPhoto - {f}))
  {
  }

  lemma WithGroupPhotosKeeps(s: State, f: int)
    ensures Keeps(s, WithGroupPhotos(s, s.pendingGroupPhoto - {f}))
  {
  }

  lemma WithMessageFilesKeeps(s: State, f: int)
    ensures Keeps(s, WithMessageFiles(s, s.pendingMessageFile - {f}))
  {
  }

  lemma FileArrivedKeeps(s: State, f: File)
    ensures Keeps(s, FileArrived(s, f))
  {
    if f.done && Scripted(s) {
      if f.id in s.pendingPhoto {
        WithPhotosKeeps(s, f.id);
        DownloadEndKeeps(s, WithPhotos(s, s.pendingPhoto - {f.id}), UserRow(s.pendingPhoto[f.id]));
      } else if f.id in s.pendingGroupPhoto {
        WithGroupPhotosKeeps(s, f.id);
        DownloadEndKeeps(s, WithGroupPhotos(s, s.pendingGroupPhoto - {f.id}), GroupRow(s.pendingGroupPhoto[f.id]));
      } else if f.id in s.pendingMessageFile {
        var key := s.pendingMessageFile[f.id];
        WithMessageFilesKeeps(s, f.id);
        DownloadEndKeeps(s, WithMessageFiles(s, s.pendingMessageFile - {f.id}), MessageRow(key.0, key.1));
      }
    }
  }

  lemma {:induction false} EmitDeletesKeeps(s: State, chat: int, ids: seq<int>)
    ensures Keeps(s, EmitDeletes(s, chat, ids))
  {
    if ids != [] {
      EmitDeletesKeeps(s, chat, ids[..|ids| - 1]);
      EmitKeeps(EmitDeletes(s, chat, ids[..|ids| - 1]), ToSerial(Delete(chat, ids[|ids| - 1])));
    }
  }

  lemma {:induction false} EnsureAdminsKeeps(s: State, members: Members)
    ensures Keeps(s, EnsureAdmins(s, members))
  {
    if members != [] {
      var front, m := members[..|members| - 1], members[|members| - 1];
      EnsureAdminsKeeps(s, front);
      if m.Some? {
        EnsureUserKeeps(EnsureAdmins(s, front), m.value.userId);
      }
    }
  }

  lemma EmitAdminsKeeps(s: State, chat: int, members: Members)
    ensures Keeps(s, EmitAdmins(s, chat, members))
  {
    EnsureAdminsKeeps(s, members);
    if AdminsIn(members) != [] {
      EmitKeeps(EnsureAdmins(s, members), ToSerial(SyncAdmins(chat, AdminsIn(members))));
    }
  }

  // ---------------------------------------------------------------- messages and replies

  lemma LinkKeeps(s: State, src: Key, target: Key, reason: LinkReason)
    requires SavedKey(s.script, src) && (reason.Fetched? || reason.AlreadySaved? ==> SavedKey(s.script, target))
    ensures Keeps(s, Emit(s, LinkJob(src, target, reason)))
  {
    EmitKeeps(s, LinkJob(src, target, reason));
  }

  lemma ResolveReplyKeeps(s: State, m: TdMessage, depth: nat, root: nat)
    requires Saved(s.script, m.Row()) && ResolvedSaved(s)
    ensures Keeps(s, ResolveReply(s, m, depth, root))
  {
    if m.ReplyTarget().Some? {
      var src, target := m.Key(), m.ReplyTarget().value;
      var s1, s2 := WithReply(s, src, target), ResolveReply(s, m, depth, root);
      WithCoreKeeps(s, s1.core);
      if target in s.core.resolved {
        LinkKeeps(s1, src, target, AlreadySaved);
      } else if depth >= MAX_REPLY_DEPTH {
        LinkKeeps(s1, src, target, DepthCap);
      } else {
        SendKeeps(s1, GetReplied(target, depth, root), Some(FetchReply(src, target, depth, root)));
      }
      KeepsTrans(s, s1, s2);
    }
  }

  /** The message is saved before its file and its reply are looked at. */
  lemma SaveMessageKeeps(s: State, m: TdMessage)
    requires Scripted(s) && forall key <- s.core.resolved :: SavedKey(s.script, key) || key == m.Key()
    ensures var s3 := DownloadMessageFile(Emit(ResolveOrigin(s, m), ToSerial(Save(m.Row()))), m);
      Keeps(s, s3) && Saved(s3.script, m.Row()) && ResolvedSaved(s3)
  {
    var s1 := ResolveOrigin(s, m);
    var s2 := Emit(s1, ToSerial(Save(m.Row())));
    var s3 := DownloadMessageFile(s2, m);
    ResolveOriginKeeps(s, m);
    SaveKeeps(s1, m.Row());
    KeepsTrans(s, s1, s2);
    DownloadMessageFileKeeps(s2, m);
    KeepsTrans(s, s2, s3);
    assert Saved(s3.script, m.Row());
  }

  /** Every resolved target but the message itself is saved before; the message is saved here. */
  lemma {:induction false} HandleMessageKeeps(s: State, m: TdMessage, depth: nat, root: nat)
    requires Scripted(s) && forall key <- s.core.resolved :: SavedKey(s.script, key) || key == m.Key()
    ensures var s' := HandleMessage(s, m, depth, root);
      Keeps(s, s') && Saved(s'.script, m.Row())
  {
    var s3 := DownloadMessageFile(Emit(ResolveOrigin(s, m), ToSerial(Save(m.Row()))), m);
    SaveMessageKeeps(s, m);
    ResolveReplyKeeps(s3, m, depth, root);
    KeepsTrans(s, s3, ResolveReply(s3, m, depth, root));
  }

  lemma ResolvedStaysSaved(s: State, s': State)
    requires ResolvedSaved(s) && Grows(s, s')
    ensures ResolvedSaved(s')
  {
  }

  /** A target is remembered before it is saved: the invariant but for that target. */
  lemma MarkedKeeps(s: State, target: Key)
    requires ScriptInv(s)
    ensures var s1 := MarkResolved(s, target);
      && Scripted(s1) && CachesExact(s1) && Later(s, s1)
      && s1.script == s.script && s1.core.chatGroup == s.core.chatGroup && s1.users == s.users
      && forall key <- s1.core.resolved :: SavedKey(s1.script, key) || key == target
  {
    assert forall row :: Cached(MarkResolved(s, target), row) <==> Cached(s, row);
    assert Scripted(MarkResolved(s, target));
  }

  lemma {:induction false} ReplyFetchedKeeps(s: State, src: Key, target: Key, depth: nat, root: nat, r: TdMessage)
    requires ScriptInv(s) && SavedKey(s.script, src) && r.Key() == target
    ensures var s' := ReplyFetched(s, src, target, depth, root, r);
      && ScriptInv(s') && Later(s, s') && SavedKey(s'.script, target)
      && s'.core.chatGroup == s.core.chatGroup && s'.users == s.users
  {
    var s1 := MarkResolved(s, target);
    var s2 := EnsureEntities(s1, r);
    var s3 := HandleMessage(s2, r, depth + 1, root);
    MarkedKeeps(s, target);
    EnsureEntitiesKeeps(s1, r);
    HandleMessageKeeps(s2, r, depth + 1, root);
    assert SavedKey(s3.script, target) && SavedKey(s3.script, src);
    assert ResolvedSaved(s3);
    LinkKeeps(s3, src, target, Fetched);
    var s4 := Emit(s3, LinkJob(src, target, Fetched));
    CachesStayExact(s1, s2);
    CachesStayExact(s2, s3);
    CachesStayExact(s3, s4);
    ResolvedStaysSaved(s3, s4);
  }

  lemma CachesStayExact(s: State, s': State)
    requires CachesExact(s) && Grows(s, s')
    ensures CachesExact(s')
  {
    assert forall row :: Cached(s', row) <==> Cached(s, row);
  }

  // ---------------------------------------------------------------- administrators and groups

  lemma RefreshKeeps(s: State, chat: int)
    requires Pollable(s.core, chat)
    ensures Keeps(s, Refresh(s, chat))
  {
    var group := s.core.chatGroup[chat];
    if s.core.groups[group].kind == BasicGroup {
      SendKeeps(s, GetBasicGroupInfo(group), None);
    } else {
      SendKeeps(s, GetMembers(group, chat), Some(FetchAdmins(chat)));
    }
  }

  lemma LookKeeps(s: State)
    requires s.core.pollQueue != []
    ensures Keeps(s, Look(s))
  {
    var s1 := WithQueue(s, TurnOnce(s.core.pollSet, s.core.pollQueue));
    WithCoreKeeps(s, s1.core);
    if IsHit(s) {
      RefreshKeeps(s1, s.core.pollQueue[0]);
      KeepsTrans(s, s1, Refresh(s1, s.core.pollQueue[0]));
    }
  }

  lemma {:induction false} PollKeeps(s: State, polled: nat, scan: nat)
    ensures Keeps(s, Poll(s, polled, scan))
    decreases scan
  {
    if polled < s.core.batch && scan > 0 && s.core.pollQueue != [] {
      var polled' := if IsHit(s) then polled + 1 else polled;
      LookKeeps(s);
      PollKeeps(Look(s), polled', scan - 1);
      KeepsTrans(s, Look(s), Poll(Look(s), polled', scan - 1));
    }
  }

  lemma AlarmRangKeeps(s: State)
    ensures Keeps(s, AlarmRang(s))
  {
    PollKeeps(s, 0, |s.core.pollQueue|);
    SendKeeps(Poll(s, 0, |s.core.pollQueue|), SetAlarm, Some(Alarm));
    SendKeeps(s, SetAlarm, Some(Alarm));
  }

  /** A chat newly bound to a group that is seen, before the group is saved. */
  lemma BindKeeps(s: State, chat: int, group: int, st: GroupState)
    requires Scripted(s) && st.seen && st.chat == chat
    ensures Scripted(WithChat(WithGroup(s, group, st), chat, group))
  {
    var s1 := WithChat(WithGroup(s, group, st), chat, group);
    forall id <- s1.handlers
      ensures InFlight(s1, s1.handlers[id])
    {
      assert InFlight(s, s.handlers[id]);
    }
  }

  lemma RecordChatSaves(s: State, chat: TdChat)
    requires !chat.kind.NotAGroup?
    ensures var s2 := Emit(EventTraffic.Bind(s, chat), ToSerial(Save(GroupRow(chat.id))));
      RecordChat(s, chat) == DownloadGroupPhoto(RequestGroupInfo(s2, chat.kind), chat.id, chat.photo)
  {
    var s1 := EventTraffic.Bind(s, chat);
    assert EmitGroup(s1, chat.kind.group) == Emit(s1, ToSerial(Save(GroupRow(chat.id))));
  }

  lemma RecordChatKeeps(s: State, chat: TdChat)
    requires ScriptInv(s) && !chat.kind.NotAGroup?
    ensures ScriptInv(RecordChat(s, chat)) && Later(s, RecordChat(s, chat))
  {
    var s1 := EventTraffic.Bind(s, chat);
    var s2 := Emit(s1, ToSerial(Save(GroupRow(chat.id))));
    var s3 := RequestGroupInfo(s2, chat.kind);
    var s4 := DownloadGroupPhoto(s3, chat.id, chat.photo);
    BindKeeps(s, chat.id, chat.kind.group, StateOfChat(s, chat));
    SaveKeeps(s1, GroupRow(chat.id));
    RequestGroupInfoKeeps(s2, chat.kind);
    KeepsTrans(s1, s2, s3);
    DownloadGroupPhotoKeeps(s3, chat.id, chat.photo);
    KeepsTrans(s1, s3, s4);
    BoundCachesExact(s, s1, s4, chat.id);
    RecordChatSaves(s, chat);
  }

  lemma RequestGroupInfoKeeps(s: State, kind: ChatKind)
    requires !kind.NotAGroup?
    ensures Keeps(s, RequestGroupInfo(s, kind))
  {
    SendKeeps(s, if kind.IsBasicGroup? then GetBasicGroupInfo(kind.group) else GetSupergroupInfo(kind.group), None);
  }

  lemma BoundCachesExact(s: State, s1: State, s4: State, chat: int)
    requires CachesExact(s) && ResolvedSaved(s) && Grows(s1, s4) && Saved(s4.script, GroupRow(chat))
    requires s1.script == s.script && s1.users == s.users && s1.core.resolved == s.core.resolved
    requires s1.core.chatGroup.Keys == s.core.chatGroup.Keys + {chat} && s1.handlers == s.handlers
      && s1.queryId == s.queryId
    ensures CachesExact(s4) && ResolvedSaved(s4) && Later(s, s4)
  {
    forall row: Entity | !row.MessageRow?
      ensures Saved(s4.script, row) <==> Cached(s4, row)
    {
      assert Cached(s1, row) <==> Cached(s, row) || row == GroupRow(chat);
    }
    assert forall id :: Spent(s, id) <==> Spent(s1, id);
  }

  lemma TrackKeeps(s: State, chat: TdChat)
    requires !chat.kind.NotAGroup? && chat.id in s.core.chatGroup
    ensures Keeps(s, Track(s, chat))
  {
    var s2 := WithQueue(WithPollSet(s, s.core.pollSet + {chat.id}), s.core.pollQueue + [chat.id]);
    WithCoreKeeps(s, s2.core);
    if chat.kind.IsSupergroup? {
      SendKeeps(s2, GetMembers(chat.kind.group, chat.id), Some(FetchAdmins(chat.id)));
    }
  }

  lemma ChatArrivedKeeps(s: State, chat: TdChat, fromList: bool)
    requires ScriptInv(s)
    ensures ScriptInv(ChatArrived(s, chat, fromList)) && Later(s, ChatArrived(s, chat, fromList))
  {
    if !chat.kind.NotAGroup? {
      var s1 := RecordChat(s, chat);
      RecordChatKeeps(s, chat);
      if fromList && chat.kind.group !in s.core.groups && chat.id !in s1.core.pollSet {
        RecordChatBinds(s, chat);
        TrackKeeps(s1, chat);
        KeepsInv(s1, Track(s1, chat));
      }
    }
  }

  lemma RecordChatBinds(s: State, chat: TdChat)
    requires !chat.kind.NotAGroup?
    ensures chat.id in RecordChat(s, chat).core.chatGroup
  {
  }

  lemma WithGroupKeeps(s: State, group: int, st: GroupState)
    requires st.seen ==> group in s.core.groups && s.core.groups[group].seen && s.core.groups[group].chat == st.chat
    ensures Keeps(s, WithGroup(s, group, st))
  {
  }

  lemma LearnedKeeps(s: State, group: int, st: GroupState)
    requires st.seen ==> group in s.core.groups && s.core.groups[group].seen && s.core.groups[group].chat == st.chat
    ensures Keeps(s, EmitGroup(WithGroup(s, group, st), group))
  {
    WithGroupKeeps(s, group, st);
    EmitGroupKeeps(WithGroup(s, group, st), group);
  }

  lemma BasicGroupInfoKeeps(s: State, group: int, members: Members)
    ensures Keeps(s, BasicGroupInfoArrived(s, group, members))
  {
    var st := StateOfGroup(s, group);
    var s1 := WithGroup(s, group, st);
    WithGroupKeeps(s, group, st);
    EmitGroupKeeps(s1, group);
    EmitAdminsKeeps(EmitGroup(s1, group), st.chat, members);
  }

  // ---------------------------------------------------------------- all events

  lemma ReadyKeeps(s: State)
    ensures Keeps(s, AuthorizationChanged(s, Ready))
  {
    var s0 := WithAuthorized(s, true);
    var s1 := SendQuery(s0, OtherQuery, Some(Ignore));
    WithCoreKeeps(s, s0.core);
    SendKeeps(s0, OtherQuery, Some(Ignore));
    KeepsTrans(s, s0, s1);
    if !s1.core.pollStarted && s1.core.pollEnabled {
      StartPollingKeeps(s1);
      KeepsTrans(s, s1, ArmAlarm(WithPollStarted(s1)));
    }
  }

  lemma StartPollingKeeps(s: State)
    ensures Keeps(s, ArmAlarm(WithPollStarted(s)))
  {
    WithCoreKeeps(s, WithPollStarted(s).core);
    SendKeeps(WithPollStarted(s), SetAlarm, Some(Alarm));
  }

  lemma AuthorizationKeeps(s: State, auth: Authorization)
    ensures Keeps(s, AuthorizationChanged(s, auth))
  {
    match auth {
      case Asking => SendKeeps(s, OtherQuery, Some(Ignore));
      case Ready => ReadyKeeps(s);
      case LoggingOut => WithCoreKeeps(s, WithAuthorized(s, false).core);
      case Closing =>
      case Closed => WithCoreKeeps(s, WithStopped(s).core);
    }
  }

  lemma SupergroupKeeps(s: State, group: int, isChannel: bool)
    ensures Keeps(s, SupergroupChanged(s, group, isChannel))
  {
    var s1 := WithSupergroup(s, group, isChannel);
    WithSupergroupKeeps(s, group, isChannel);
    if group in s1.core.groups {
      var st := s1.core.groups[group].(kind := if isChannel then Channel else Supergroup);
      LearnedKeeps(s1, group, st);
      KeepsTrans(s, s1, EmitGroup(WithGroup(s1, group, st), group));
    }
  }

  /** Updates that bring no user, chat or message. */
  predicate IsPlainUpdate(u: Update) {
    !u.User? && !u.NewChat? && !u.NewMessage? && !u.AuthorizationState?
  }

  lemma PlainUpdateKeeps(s: State, u: Update)
    requires ScriptInv(s) && IsPlainUpdate(u)
    ensures Keeps(s, AfterUpdate(s, u))
  {
    match u {
      case UserFullInfo(user) => EmitKeeps(s, ToSerial(SaveInfo(user)));
      case FileUpdate(file) => FileArrivedKeeps(s, file);
      case ChatTitle(chat) =>
        if chat in s.core.chatGroup {
          EmitGroupKeeps(s, s.core.chatGroup[chat]);
        }
      case ChatPhoto(chat, photo) =>
        if chat in s.core.chatGroup {
          assert Cached(s, GroupRow(chat));
          DownloadGroupPhotoKeeps(s, chat, photo);
        }
      case SupergroupUpdate(group, isChannel) => SupergroupKeeps(s, group, isChannel);
      case SupergroupFullInfo(group) => LearnedKeeps(s, group, StateOfGroup(s, group));
      case BasicGroupFullInfo(group, members) => BasicGroupInfoKeeps(s, group, members);
      case MessageEdited(key) => SendKeeps(s, GetEdited(key), Some(FetchEdited));
      case DeleteMessages(chat, ids) => EmitDeletesKeeps(s, chat, ids);
      case OtherUpdate =>
    }
  }

  lemma UserUpdateKeeps(s: State, user: TdUser)
    requires ScriptInv(s)
    ensures ScriptInv(UserUpdated(s, user)) && Later(s, UserUpdated(s, user))
  {
    var s1 := UserArrived(s, user);
    UserArrivedKeeps(s, user);
    SendKeeps(s1, GetUserInfo(user.id), Some(FetchInfo(user.id)));
    KeepsInv(s1, SendQuery(s1, GetUserInfo(user.id), Some(FetchInfo(user.id))));
  }

  lemma {:induction false} TopMessageKeeps(s: State, m: TdMessage)
    requires ScriptInv(s)
    ensures ScriptInv(HandleTopMessage(s, m)) && Later(s, HandleTopMessage(s, m))
  {
    var s1 := WithRoot(s);
    WithCoreKeeps(s, s1.core);
    KeepsInv(s, s1);
    HandleMessageKeeps(s1, m, 0, s.core.roots);
    ResolvedStaysSaved(s1, HandleTopMessage(s, m));
    CachesStayExact(s1, HandleTopMessage(s, m));
  }

  lemma UpdateKeeps(s: State, u: Update)
    requires ScriptInv(s)
    ensures ScriptInv(AfterUpdate(s, u)) && Later(s, AfterUpdate(s, u))
  {
    if u.NewChat? {
      ChatArrivedKeeps(s, u.chat, true);
    } else if u.NewMessage? {
      TopMessageKeeps(s, u.m);
    } else if u.User? {
      UserUpdateKeeps(s, u.user);
    } else if u.AuthorizationState? {
      AuthorizationKeeps(s, u.auth);
      KeepsInv(s, AfterUpdate(s, u));
    } else {
      PlainUpdateKeeps(s, u);
      KeepsInv(s, AfterUpdate(s, u));
    }
  }

  lemma AdminsArrivedKeeps(s: State, chat: int, o: Object)
    ensures Keeps(s, AdminsArrived(s, chat, o))
  {
    if o.MembersObject? {
      var s1 := WithMisses(s, s.core.pollMiss - {chat});
      WithCoreKeeps(s, s1.core);
      EmitAdminsKeeps(s1, chat, o.members);
      KeepsTrans(s, s1, EmitAdmins(s1, chat, o.members));
    } else if IsDenial(o) {
      WithCoreKeeps(s, MissCounted(s.core, chat));
    }
  }

  /** Answers that bring no user, chat or message. */
  predicate IsPlainAnswer(c: Cont, o: Object) {
    && (c.FetchReply? || c.FetchEdited? ==> !o.MessageObject?)
    && (c.FetchChat? ==> !o.ChatObject?)
    && (c.FetchUser? ==> !o.UserObject?)
  }

  lemma PlainAnswerKeeps(s: State, c: Cont, o: Object)
    requires IsPlainAnswer(c, o) && InFlight(s, c)
    ensures Keeps(s, Resume(s, c, o))
  {
    match c {
      case Alarm => AlarmRangKeeps(s);
      case FetchReply(src, target, _, _) => LinkKeeps(s, src, target, Unavailable);
      case FetchAdmins(chat) => AdminsArrivedKeeps(s, chat, o);
      case FetchInfo(user) => EmitKeeps(s, ToSerial(SaveInfo(user)));
      case FetchUser =>
      case FetchEdited =>
      case FetchChat =>
      case Ignore =>
    }
  }

  lemma ResumeKeeps(s: State, c: Cont, o: Object)
    requires ScriptInv(s) && InFlight(s, c) && (c.FetchReply? && o.MessageObject? ==> o.m.Key() == c.target)
    ensures ScriptInv(Resume(s, c, o)) && Later(s, Resume(s, c, o))
  {
    if IsPlainAnswer(c, o) {
      PlainAnswerKeeps(s, c, o);
      KeepsInv(s, Resume(s, c, o));
    } else if c.FetchReply? {
      ReplyFetchedKeeps(s, c.src, c.target, c.depth, c.root, o.m);
    } else if c.FetchEdited? {
      TopMessageKeeps(s, o.m);
    } else if c.FetchChat? {
      ChatArrivedKeeps(s, o.chat, false);
    } else {
      UserArrivedKeeps(s, o.user);
    }
  }

  lemma AnswerKeeps(s: State, id: nat, o: Object)
    requires ScriptInv(s) && Asked(s) && id in s.handlers && Plausible(s, Answered(id, o))
    ensures ScriptInv(Step(s, Answered(id, o))) && Later(s, Step(s, Answered(id, o)))
      && Spent(Step(s, Answered(id, o)), id)
  {
    var s1, c := WithHandlers(s, s.handlers - {id}), s.handlers[id];
    WithoutHandlerKeeps(s, id);
    KeepsInv(s, s1);
    assert InFlight(s, c) && Spent(s1, id);
    assert Fits(s.core.chatGroup, s.sent[id - 1], c);
    ResumeKeeps(s1, c, o);
  }

  lemma StepKeepsScript(s: State, e: Event)
    requires ScriptInv(s) && Asked(s) && Plausible(s, e)
    ensures ScriptInv(Step(s, e)) && Later(s, Step(s, e))
  {
    if e.Updated? {
      UpdateKeeps(s, e.u);
    } else if e.CloseRequested? {
      WithCoreKeeps(s, WithClosing(s).core);
      SendKeeps(WithClosing(s), OtherQuery, None);
      KeepsInv(s, Step(s, e));
    } else if e.id in s.handlers {
      AnswerKeeps(s, e.id, e.o);
    }
  }

  lemma {:induction false} ScriptInvOnAnyRun(s: State, events: seq<Event>)
    requires ScriptInv(s) && Asked(s) && PlausibleRun(s, events)
    ensures ScriptInv(Run(s, events)) && Asked(Run(s, events)) && Later(s, Run(s, events))
  {
    if events != [] {
      var front, e := events[..|events| - 1], events[|events| - 1];
      FrontPlausible(s, events);
      ScriptInvOnAnyRun(s, front);
      StepKeepsScript(Run(s, front), e);
      StepKeepsAsked(Run(s, front), e);
    }
  }

  lemma StartScripted(pollEnabled: bool, batch: nat)
    ensures ScriptInv(Start(pollEnabled, batch))
  {
  }

  /**
   On every run, whatever arrives in whatever order: the loop posts no file link itself; each file job
   and each reply link comes after the save of its row, a link that follows a fetch or a dedup hit
   also after the save of the replied message; and no administrator list is synced empty.
   */
  lemma {:induction false} ScriptOnAnyRun(pollEnabled: bool, batch: nat, events: seq<Event>)
    requires PlausibleRun(Start(pollEnabled, batch), events)
    ensures var script := Run(Start(pollEnabled, batch), events).script;
      FromLoop(script) && WellOrdered(script) && NoEmptySync(script)
  {
    StartScripted(pollEnabled, batch);
    StartAsked(pollEnabled, batch);
    ScriptInvOnAnyRun(Start(pollEnabled, batch), events);
  }

  /**
   Each stored continuation runs at most once: whatever is answered again, or was sent without one, runs
   nothing ever after.
   */
  lemma {:induction false} AnswersRunOnce(
    pollEnabled: bool, batch: nat, before: seq<Event>, id: nat, o: Object, after: seq<Event>)
    requires PlausibleRun(Start(pollEnabled, batch), before)
    requires id in Run(Start(pollEnabled, batch), before).handlers
    requires Plausible(Run(Start(pollEnabled, batch), before), Answered(id, o))
    requires PlausibleRun(Step(Run(Start(pollEnabled, batch), before), Answered(id, o)), after)
    ensures id !in Run(Step(Run(Start(pollEnabled, batch), before), Answered(id, o)), after).handlers
  {
    var s := Run(Start(pollEnabled, batch), before);
    StartScripted(pollEnabled, batch);
    StartAsked(pollEnabled, batch);
    ScriptInvOnAnyRun(Start(pollEnabled, batch), before);
    AnswerKeeps(s, id, o);
    StepKeepsAsked(s, Answered(id, o));
    ScriptInvOnAnyRun(Step(s, Answered(id, o)), after);
    assert Spent(Step(s, Answered(id, o)), id);
  }

  // ---------------------------------------------------------------- users and groups before messages

  /** The row that the chat key of a message refers to. */
  function ChatRow(chat: int): Entity {
    if IsPrivate(chat) then UserRow(chat) else GroupRow(chat)
  }

  /** The rows that the row of a message refers to: its chat, its sender and where it was forwarded from. */
  predicate IsParent(m: TdMessage, row: Entity) {
    || row == ChatRow(m.chat)
    || (m.sender.UserSender? && row == UserRow(m.sender.user))
    || (m.sender.ChatSender? && row == GroupRow(m.sender.chat))
    || (m.originUser.Some? && row == UserRow(m.originUser.value))
    || (m.originChat.Some? && row == GroupRow(m.originChat.value))
  }

  /** The n-th emission saves the message, and of its parents exactly those saved before that are cached in s. */
  ghost predicate SavesAfterCached(s: State, m: TdMessage, script: seq<Emission>, n: nat) {
    && |s.script| <= n < |script| && script[n] == ToSerial(Save(m.Row()))
    && forall row: Entity :: IsParent(m, row) ==> (Saved(script[..n], row) <==> Cached(s, row))
  }

  lemma EmitAppends(s: State, e: Emission)
    ensures s.script <= Emit(s, e).script
  {
  }

  lemma DownloadMessageFileAppends(s: State, m: TdMessage)
    ensures s.script <= DownloadMessageFile(s, m).script
  {
  }

  lemma ResolveReplyAppends(s: State, m: TdMessage, depth: nat, root: nat)
    ensures s.script <= ResolveReply(s, m, depth, root).script
  {
    var target := m.ReplyTarget();
    if target.Some? {
      var s1 := WithReply(s, m.Key(), target.value);
      assert s1.script == s.script;
      if target.value in s.core.resolved {
        EmitAppends(s1, LinkJob(m.Key(), target.value, AlreadySaved));
      } else if depth >= MAX_REPLY_DEPTH {
        EmitAppends(s1, LinkJob(m.Key(), target.value, DepthCap));
      } else {
        assert ResolveReply(s, m, depth, root).script == s1.script;
      }
    }
  }

  lemma EnsureUserAppends(s: State, user: int)
    ensures s.script <= EnsureUser(s, user).script
  {
  }

  lemma EnsureChatAppends(s: State, chat: int)
    ensures s.script <= EnsureChat(s, chat).script
  {
  }

  lemma ResolveOriginAppends(s: State, m: TdMessage)
    ensures s.script <= ResolveOrigin(s, m).script
  {
    var s1 := if m.originUser.Some? then EnsureUser(s, m.originUser.value) else s;
    if m.originUser.Some? {
      EnsureUserAppends(s, m.originUser.value);
    }
    if m.originChat.Some? {
      EnsureChatAppends(s1, m.originChat.value);
    }
  }

  lemma EnsureEntitiesAppends(s: State, m: TdMessage)
    ensures s.script <= EnsureEntities(s, m).script
  {
    var s1 := if IsPrivate(m.chat) then EnsureUser(s, m.chat) else EnsureChat(s, m.chat);
    EnsureUserAppends(s, m.chat);
    EnsureChatAppends(s, m.chat);
    if m.sender.UserSender? {
      EnsureUserAppends(s1, m.sender.user);
    } else if m.sender.ChatSender? {
      EnsureChatAppends(s1, m.sender.chat);
    }
  }

  /**
   When a message is handled, each user or group it refers to has been saved before it exactly if the loop
   knew that user or group: the helpers save what is known again and request what is not, too late.
   */
  lemma ParentsSavedIff(s: State, m: TdMessage, depth: nat, root: nat) returns (n: nat)
    requires Scripted(s) && CachesExact(s)
    ensures SavesAfterCached(s, m, HandleMessage(s, m, depth, root).script, n)
  {
    var s1 := ResolveOrigin(s, m);
    var s2 := Emit(s1, ToSerial(Save(m.Row())));
    var s3 := DownloadMessageFile(s2, m);
    ResolveOriginKeeps(s, m);
    CachesStayExact(s, s1);
    ResolveOriginAppends(s, m);
    DownloadMessageFileAppends(s2, m);
    ResolveReplyAppends(s3, m, depth, root);
    n := |s1.script|;
    var script := HandleMessage(s, m, depth, root).script;
    assert s2.script <= script && script[..n] == s1.script;
    assert script[n] == s2.script[n];
    assert forall row :: Cached(s1, row) <==> Cached(s, row);
  }

  /** The same for a message that was fetched because it was replied to. */
  lemma FetchedParentsSavedIff(s: State, src: Key, target: Key, depth: nat, root: nat, r: TdMessage) returns (n: nat)
    requires ScriptInv(s)
    ensures SavesAfterCached(s, r, ReplyFetched(s, src, target, depth, root, r).script, n)
  {
    var s1 := MarkResolved(s, target);
    var s2 := EnsureEntities(s1, r);
    var s3 := HandleMessage(s2, r, depth + 1, root);
    MarkedKeeps(s, target);
    EnsureEntitiesKeeps(s1, r);
    CachesStayExact(s1, s2);
    EnsureEntitiesAppends(s1, r);
    n := ParentsSavedIff(s2, r, depth + 1, root);
    LinkAppends(s3, s2, s, r, src, target, n);
  }

  lemma LinkAppends(s3: State, s2: State, s: State, r: TdMessage, src: Key, target: Key, n: nat)
    requires SavesAfterCached(s2, r, s3.script, n) && s.script <= s2.script
    requires s2.users == s.users && s2.core.chatGroup == s.core.chatGroup
    ensures SavesAfterCached(s, r, Emit(s3, LinkJob(src, target, Fetched)).script, n)
  {
    var script := Emit(s3, LinkJob(src, target, Fetched)).script;
    assert script[..n] == s3.script[..n] && script[n] == s3.script[n];
    assert forall row :: Cached(s2, row) <==> Cached(s, row);
  }

  /** A new message is saved, and no save of a user or group unknown so far goes with it. */
  lemma UnknownStaysUnsaved(s: State, m: TdMessage)
    requires ScriptInv(s)
    ensures var script := HandleTopMessage(s, m).script;
      Saved(script, m.Row()) && forall row: Entity :: IsParent(m, row) && !Cached(s, row) ==> !Saved(script, row)
  {
    var s1, s2 := WithRoot(s), HandleTopMessage(s, m);
    WithCoreKeeps(s, s1.core);
    KeepsInv(s, s1);
    HandleMessageKeeps(s1, m, 0, s.core.roots);
    CachesStayExact(s1, s2);
    assert forall row: Entity :: Cached(s2, row) <==> Cached(s, row);
  }

  /**
   A run on which the helpers are too late: the first message of all is saved, and neither its chat nor its
   sender nor where it was forwarded from is, before it or after it.
   */
  lemma FirstMessageSavedAlone(pollEnabled: bool, batch: nat, m: TdMessage)
    ensures PlausibleRun(Start(pollEnabled, batch), [Updated(NewMessage(m))])
    ensures var script := Run(Start(pollEnabled, batch), [Updated(NewMessage(m))]).script;
      Saved(script, m.Row()) && forall row: Entity :: IsParent(m, row) ==> !Saved(script, row)
  {
    var s := Start(pollEnabled, batch);
    StartScripted(pollEnabled, batch);
    UnknownStaysUnsaved(s, m);
    MessageStep(s, m);
    OneStep(s, Updated(NewMessage(m)), HandleTopMessage(s, m));
  }

  lemma {:induction false} OneStep(s: State, e: Event, s1: State)
    requires Plausible(s, e) && s1 == Step(s, e)
    ensures PlausibleRun(s, [e]) && Run(s, [e]) == s1
  {
    assert [e][..0] == [] && Run(s, []) == s;
  }

  /**
   The replied message of a chat that the loop does not know: its save is emitted with no save of the chat at
   all, it is remembered as resolved, and the link goes out as fetched.
   */
  lemma FetchedFromUnknownChat(s: State, src: Key, target: Key, depth: nat, root: nat, r: TdMessage)
    requires ScriptInv(s) && SavedKey(s.script, src) && r.Key() == target && !Cached(s, ChatRow(target.0))
    ensures var s' := ReplyFetched(s, src, target, depth, root, r);
      && SavedKey(s'.script, target) && !Saved(s'.script, ChatRow(target.0))
      && target in s'.core.resolved && LinkJob(src, target, Fetched) in s'.script
  {
    var s' := ReplyFetched(s, src, target, depth, root, r);
    ReplyFetchedKeeps(s, src, target, depth, root, r);
    assert !Cached(s', ChatRow(target.0));
    assert s'.script[|s'.script| - 1] == LinkJob(src, target, Fetched);
    FetchedIsResolved(s, src, target, depth, root, r);
  }

  /** A replied message of a group that the loop does not know is being fetched. */
  ghost predicate FetchesUnknown(s: State, src: Key, target: Key) {
    && target.0 !in s.core.chatGroup && s.queryId in s.handlers
    && s.handlers[s.queryId] == FetchReply(src, target, 0, 0)
  }

  /** A run that leads there: a message of a group from the chat list replies to one of a group never seen. */
  lemma UnknownGroupReached(pollEnabled: bool, batch: nat, chat: TdChat, m: TdMessage, target: Key) returns (s: State)
    requires !chat.kind.NotAGroup? && m.ReplyTarget() == Some(target) && target.0 != chat.id
    requires m.originUser.None? && m.originChat.None?
    ensures PlausibleRun(Start(pollEnabled, batch), [Updated(NewChat(chat)), Updated(NewMessage(m))])
    ensures s == Run(Start(pollEnabled, batch), [Updated(NewChat(chat)), Updated(NewMessage(m))])
    ensures FetchesUnknown(s, m.Key(), target)
  {
    var s1 := ChatArrived(Start(pollEnabled, batch), chat, true);
    s := HandleTopMessage(s1, m);
    ChatThenMessage(Start(pollEnabled, batch), chat, m);
    FirstChatArrives(Start(pollEnabled, batch), chat);
    FirstReplyFetched(s1, m, target);
  }

  lemma ChatThenMessage(s: State, chat: TdChat, m: TdMessage)
    requires s.core.chatGroup == map[]
    ensures PlausibleRun(s, [Updated(NewChat(chat)), Updated(NewMessage(m))])
    ensures Run(s, [Updated(NewChat(chat)), Updated(NewMessage(m))]) == HandleTopMessage(ChatArrived(s, chat, true), m)
  {
    ChatStep(s, chat);
    var s1 := ChatArrived(s, chat, true);
    MessageStep(s1, m);
    TwoSteps(s, Updated(NewChat(chat)), s1, Updated(NewMessage(m)), HandleTopMessage(s1, m));
  }

  lemma ChatStep(s: State, chat: TdChat)
    ensures Step(s, Updated(NewChat(chat))) == ChatArrived(s, chat, true)
  {
  }

  lemma MessageStep(s: State, m: TdMessage)
    ensures Step(s, Updated(NewMessage(m))) == HandleTopMessage(s, m)
  {
  }

  lemma {:induction false} TwoSteps(s: State, e1: Event, s1: State, e2: Event, s2: State)
    requires Plausible(s, e1) && s1 == Step(s, e1) && Plausible(s1, e2) && s2 == Step(s1, e2)
    ensures PlausibleRun(s, [e1, e2]) && Run(s, [e1, e2]) == s2
  {
    var events := [e1, e2];
    assert events[..0] == [] && events[..1] == [e1] && [e1][..0] == [];
    assert Run(s, []) == s && Run(s, [e1]) == s1;
  }

  lemma RecordChatCore(s: State, chat: TdChat)
    requires !chat.kind.NotAGroup?
    ensures RecordChat(s, chat).core == EventTraffic.Bind(s, chat).core
  {
    var s2 := EmitGroup(EventTraffic.Bind(s, chat), chat.kind.group);
    var s3 := RequestGroupInfo(s2, chat.kind);
    assert s2.core == EventTraffic.Bind(s, chat).core;
    assert s3.core == s2.core;
    assert DownloadGroupPhoto(s3, chat.id, chat.photo).core == s3.core;
  }

  lemma FirstChatArrives(s: State, chat: TdChat)
    requires !chat.kind.NotAGroup?
    ensures var c := ChatArrived(s, chat, true).core;
      (c.chatGroup, c.resolved, c.roots)
        == (s.core.chatGroup[chat.id := chat.kind.group], s.core.resolved, s.core.roots)
  {
    var s1 := RecordChat(s, chat);
    RecordChatCore(s, chat);
    assert s1.core.chatGroup == s.core.chatGroup[chat.id := chat.kind.group];
    assert s1.core.resolved == s.core.resolved && s1.core.roots == s.core.roots;
    TrackCore(s1, chat);
  }

  lemma TrackCore(s: State, chat: TdChat)
    requires !chat.kind.NotAGroup?
    ensures var c := Track(s, chat).core;
      c.chatGroup == s.core.chatGroup && c.resolved == s.core.resolved && c.roots == s.core.roots
  {
    var s1 := WithQueue(WithPollSet(s, s.core.pollSet + {chat.id}), s.core.pollQueue + [chat.id]);
    assert Track(s, chat).core == s1.core;
  }

  lemma FirstReplyFetched(s: State, m: TdMessage, target: Key)
    requires m.ReplyTarget() == Some(target) && target !in s.core.resolved && target.0 !in s.core.chatGroup
    requires m.originUser.None? && m.originChat.None? && s.core.roots == 0
    ensures FetchesUnknown(HandleTopMessage(s, m), m.Key(), target)
  {
  }

  lemma FetchedIsResolved(s: State, src: Key, target: Key, depth: nat, root: nat, r: TdMessage)
    requires ScriptInv(s) && r.Key() == target
    ensures target in ReplyFetched(s, src, target, depth, root, r).core.resolved
  {
    var s1 := MarkResolved(s, target);
    var s2 := EnsureEntities(s1, r);
    MarkedKeeps(s, target);
    EnsureEntitiesKeeps(s1, r);
    HandleMessageKeeps(s2, r, depth + 1, root);
  }
}
