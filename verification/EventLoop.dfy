/**
 The event loop of the client (TDLib::Impl): how its state changes when TDLib delivers an update or
 the answer to a query.  Everything here runs on one thread, one response at a time.

 The continuations stored in handlers_ are a datatype.  All handlers that TgLoggerd::start registers
 are taken as set.  What a query or a job carries beyond the fields below does not influence the loop.
 Module EventLoopImpl holds the methods of the source, proved to compute these functions.
 */
module EventLoop {
  import opened Common
  import opened Models

  const MAX_REPLY_DEPTH: nat := 128
  const REPLY_DEDUP_CAP: nat := 1000000
  const ADMIN_POLL_MAX_MISS: nat := 3

  type Key = (int, int)                          // (chat_id, message_id)

  datatype GroupType = BasicGroup | Supergroup | Channel

  datatype GroupState = GroupState(kind: GroupType, chat: int, seen: bool)

  // ---------------------------------------------------------------- what TDLib delivers

  datatype File = File(id: int, done: bool)

  datatype Sender = NoSender | UserSender(user: int) | ChatSender(chat: int)

  datatype TdMessage = TdMessage(
    chat: int, id: int, sender: Sender,
    originUser: Option<int>, originChat: Option<int>,          // of the forward info, if any
    reply: Option<Key>,                                        // a messageReplyToMessage as received
    file: Option<File>)
  {
    function Key(): Key { (chat, id) }

    function Row(): Entity { MessageRow(chat, id) }

    /** reply_target: a zero message id is no reply, a zero chat id means this chat. */
    function ReplyTarget(): (target: Option<Key>)
      ensures target.Some? <==> reply.Some? && reply.value.1 != 0
      ensures target.Some? ==> target.value.1 == reply.value.1 && (reply.value.0 == 0 ==> target.value.0 == chat)
      ensures target.Some? && reply.value.0 != 0 ==> target == reply
    {
      if reply.None? || reply.value.1 == 0 then None
      else Some((if reply.value.0 != 0 then reply.value.0 else chat, reply.value.1))
    }
  }

  datatype ChatKind = IsBasicGroup(group: int) | IsSupergroup(group: int, isChannel: bool) | NotAGroup

  datatype TdChat = TdChat(id: int, kind: ChatKind, photo: Option<File>)

  datatype TdUser = TdUser(id: int, photo: Option<File>)

  /** Members in the order received; None stands for one that is no administrator. */
  type Members = seq<Option<Admin>>

  /** Asking: parameters, phone number, code, password or registration; Closing: any state the client ignores. */
  datatype Authorization = Asking | Ready | LoggingOut | Closing | Closed

  datatype Update =
    | AuthorizationState(auth: Authorization)
    | User(user: TdUser)
    | UserFullInfo(userId: int)
    | FileUpdate(file: File)
    | NewChat(chat: TdChat)
    | ChatTitle(chatId: int)
    | ChatPhoto(chatId: int, photo: Option<File>)
    | SupergroupUpdate(group: int, isChannel: bool)
    | SupergroupFullInfo(group: int)
    | BasicGroupFullInfo(group: int, members: Members)
    | NewMessage(m: TdMessage)
    | MessageEdited(key: Key)
    | DeleteMessages(chatId: int, ids: seq<int>)
    | OtherUpdate

  datatype Object =
    | MessageObject(m: TdMessage)
    | ChatObject(chat: TdChat)
    | UserObject(user: TdUser)
    | UserInfoObject
    | MembersObject(members: Members)
    | ErrorObject(code: int)
    | OtherObject

  datatype Event =
    | Updated(u: Update)
    | Answered(id: nat, o: Object)
    | CloseRequested                             // TDLib::close

  // ---------------------------------------------------------------- state

  /** A continuation in handlers_. */
  datatype Cont =
    | Alarm
    | FetchReply(src: Key, target: Key, depth: nat, root: nat)
    | FetchEdited
    | FetchAdmins(chat: int)
    | FetchChat
    | FetchUser
    | FetchInfo(user: int)
    | Ignore

  /** A query sent to TDLib. */
  datatype Query =
    | GetReplied(key: Key, depth: nat, root: nat)   // getMessage of a replied message
    | GetEdited(key: Key)                           // getMessage of an edited message
    | GetMembers(group: int, chat: int)
    | GetBasicGroupInfo(group: int)
    | GetSupergroupInfo(group: int)
    | GetChat(chat: int)
    | GetUser(user: int)
    | GetUserInfo(user: int)
    | Download(file: int)
    | SetAlarm
    | OtherQuery

  /** The state of the protocols: authorization, known groups, admin polling and the reply walk. */
  datatype Core = Core(
    pollEnabled: bool,                           // admin_poll_interval_ > 0
    batch: nat,                                  // admin_poll_batch_, at least 1
    authorized: bool,
    stopped: bool,
    closing: bool,
    groups: map<int, GroupState>,                // group_state_
    chatGroup: map<int, int>,                    // chat_to_group_
    pollStarted: bool,
    pollSet: set<int>,
    pollQueue: seq<int>,
    pollMiss: map<int, nat>,
    resolved: set<Key>,                          // resolved_reply_targets_
    // history, for statements only
    replies: seq<(Key, Key)>,                    // reply messages handled, with their targets
    roots: nat)                                  // messages handled at depth 0

  datatype State = State(
    core: Core,
    handlers: map<nat, Cont>,
    queryId: nat,                                // current_query_id_
    // caches and downloads in flight
    users: set<int>,
    supergroups: map<int, bool>,                 // is_channel
    pendingPhoto: map<int, int>,
    pendingGroupPhoto: map<int, int>,
    pendingMessageFile: map<int, Key>,
    // output
    sent: seq<Query>,
    script: seq<Emission>)

  function Start(pollEnabled: bool, batch: nat): State {
    var core := Core(pollEnabled, batch, false, false, false, map[], map[], false, {}, [], map[], {}, [], 0);
    State(core, map[], 1, {}, map[], map[], map[], map[], [OtherQuery], [])
  }

  // ---------------------------------------------------------------- queries and jobs

  /** send_query; ids only grow, so the emplace of the source always finds a free slot. */
  function SendQuery(s: State, q: Query, cont: Option<Cont>): State {
    var id := s.queryId + 1;
    s.(queryId := id, sent := s.sent + [q], handlers := if cont.Some? then s.handlers[id := cont.value] else s.handlers)
  }

  function Emit(s: State, e: Emission): State {
    s.(script := s.script + [e])
  }

  function EmitGroup(s: State, group: int): State {
    if group in s.core.groups && s.core.groups[group].seen then
      Emit(s, ToSerial(Save(GroupRow(s.core.groups[group].chat))))
    else s
  }

  // ---------------------------------------------------------------- single fields

  function WithRoot(s: State): State {
    s.(core := s.core.(roots := s.core.roots + 1))
  }

  function WithReply(s: State, src: Key, target: Key): State {
    s.(core := s.core.(replies := s.core.replies + [(src, target)]))
  }

  function WithUser(s: State, user: int): State {
    s.(users := s.users + {user})
  }

  function WithGroup(s: State, group: int, st: GroupState): State {
    s.(core := s.core.(groups := s.core.groups[group := st]))
  }

  function WithChat(s: State, chat: int, group: int): State {
    s.(core := s.core.(chatGroup := s.core.chatGroup[chat := group]))
  }

  function WithSupergroup(s: State, group: int, isChannel: bool): State {
    s.(supergroups := s.supergroups[group := isChannel])
  }

  function WithPhotos(s: State, pending: map<int, int>): State {
    s.(pendingPhoto := pending)
  }

  function WithGroupPhotos(s: State, pending: map<int, int>): State {
    s.(pendingGroupPhoto := pending)
  }

  function WithMessageFiles(s: State, pending: map<int, Key>): State {
    s.(pendingMessageFile := pending)
  }

  function WithQueue(s: State, queue: seq<int>): State {
    s.(core := s.core.(pollQueue := queue))
  }

  function WithPollSet(s: State, tracked: set<int>): State {
    s.(core := s.core.(pollSet := tracked))
  }

  function WithMisses(s: State, misses: map<int, nat>): State {
    s.(core := s.core.(pollMiss := misses))
  }

  function WithHandlers(s: State, handlers: map<nat, Cont>): State {
    s.(handlers := handlers)
  }

  function WithAuthorized(s: State, authorized: bool): State {
    s.(core := s.core.(authorized := authorized))
  }

  function WithPollStarted(s: State): State {
    s.(core := s.core.(pollStarted := true))
  }

  function WithStopped(s: State): State {
    s.(core := s.core.(authorized := false, stopped := true))
  }

  function WithClosing(s: State): State {
    s.(core := s.core.(closing := true))
  }

  predicate IsPrivate(chat: int) {
    chat > 0
  }

  // ---------------------------------------------------------------- entities and files

  function EnsureUser(s: State, user: int): State {
    if user == 0 then s
    else if user in s.users then Emit(s, ToSerial(Save(UserRow(user))))
    else SendQuery(s, GetUser(user), Some(FetchUser))
  }

  function EnsureChat(s: State, chat: int): State {
    if chat == 0 || IsPrivate(chat) then s
    else if chat in s.core.chatGroup then EmitGroup(s, s.core.chatGroup[chat])
    else SendQuery(s, GetChat(chat), Some(FetchChat))
  }

  function ResolveOrigin(s: State, m: TdMessage): State {
    var s1 := if m.originUser.Some? then EnsureUser(s, m.originUser.value) else s;
    if m.originChat.Some? then EnsureChat(s1, m.originChat.value) else s1
  }

  function EnsureEntities(s: State, m: TdMessage): State {
    var s1 := if IsPrivate(m.chat) then EnsureUser(s, m.chat) else EnsureChat(s, m.chat);
    match m.sender
    case NoSender => s1
    case UserSender(user) => EnsureUser(s1, user)
    case ChatSender(chat) => EnsureChat(s1, chat)
  }

  function DownloadMessageFile(s: State, m: TdMessage): State {
    match m.file
    case None => s
    case Some(f) =>
      if f.done then Emit(s, ToFiles(StoreFile(m.Row())))
      else SendQuery(WithMessageFiles(s, s.pendingMessageFile[f.id := m.Key()]), Download(f.id), None)
  }

  function DownloadGroupPhoto(s: State, chat: int, photo: Option<File>): State {
    match photo
    case None => s
    case Some(f) =>
      if f.done then Emit(s, ToFiles(StoreFile(GroupRow(chat))))
      else SendQuery(WithGroupPhotos(s, s.pendingGroupPhoto[f.id := chat]), Download(f.id), None)
  }

  function DownloadProfilePhoto(s: State, u: TdUser): State {
    match u.photo
    case None => s
    case Some(f) =>
      if f.done then Emit(s, ToFiles(StoreFile(UserRow(u.id))))
      else SendQuery(WithPhotos(s, s.pendingPhoto[f.id := u.id]), Download(f.id), None)
  }

  /** handle_file_update */
  function FileArrived(s: State, f: File): State {
    if !f.done then s
    else if f.id in s.pendingPhoto then
      Emit(WithPhotos(s, s.pendingPhoto - {f.id}), ToFiles(StoreFile(UserRow(s.pendingPhoto[f.id]))))
    else if f.id in s.pendingGroupPhoto then
      Emit(WithGroupPhotos(s, s.pendingGroupPhoto - {f.id}), ToFiles(StoreFile(GroupRow(s.pendingGroupPhoto[f.id]))))
    else if f.id in s.pendingMessageFile then
      var key := s.pendingMessageFile[f.id];
      Emit(WithMessageFiles(s, s.pendingMessageFile - {f.id}), ToFiles(StoreFile(MessageRow(key.0, key.1))))
    else s
  }

  /** A user was received, by update or on request. */
  function UserArrived(s: State, u: TdUser): State {
    WithUser(DownloadProfilePhoto(Emit(s, ToSerial(Save(UserRow(u.id)))), u), u.id)
  }

  // ---------------------------------------------------------------- messages and replies

  function LinkJob(src: Key, target: Key, reason: LinkReason): Emission {
    ToSerial(LinkReply(MessageRow(src.0, src.1), MessageRow(target.0, target.1), reason))
  }

  /** resolve_reply_message: link at once, or fetch the replied message first. */
  function ResolveReply(s: State, m: TdMessage, depth: nat, root: nat): State {
    match m.ReplyTarget()
    case None => s
    case Some(target) =>
      var s1 := WithReply(s, m.Key(), target);
      if target in s.core.resolved then Emit(s1, LinkJob(m.Key(), target, AlreadySaved))
      else if depth >= MAX_REPLY_DEPTH then Emit(s1, LinkJob(m.Key(), target, DepthCap))
      else SendQuery(s1, GetReplied(target, depth, root), Some(FetchReply(m.Key(), target, depth, root)))
  }

  /** handle_message_for_private_chat, handle_message_for_group_chat */
  function HandleMessage(s: State, m: TdMessage, depth: nat, root: nat): State {
    var s1 := Emit(ResolveOrigin(s, m), ToSerial(Save(m.Row())));
    ResolveReply(DownloadMessageFile(s1, m), m, depth, root)
  }

  /** A message that was not fetched as a replied one. */
  function HandleTopMessage(s: State, m: TdMessage): State {
    HandleMessage(WithRoot(s), m, 0, s.core.roots)
  }

  function MarkResolved(s: State, target: Key): State {
    s.(core := s.core.(resolved := (if |s.core.resolved| >= REPLY_DEDUP_CAP then {} else s.core.resolved) + {target}))
  }

  /** The replied message arrived: save it, go on from it, and record the link. */
  function ReplyFetched(s: State, src: Key, target: Key, depth: nat, root: nat, r: TdMessage): State {
    var s1 := EnsureEntities(MarkResolved(s, target), r);
    Emit(HandleMessage(s1, r, depth + 1, root), LinkJob(src, target, Fetched))
  }

  function ReplyArrived(s: State, c: Cont, o: Object): State
    requires c.FetchReply?
  {
    match o
    case MessageObject(r) => ReplyFetched(s, c.src, c.target, c.depth, c.root, r)
    case _ => Emit(s, LinkJob(c.src, c.target, Unavailable))
  }

  function EmitDeletes(s: State, chat: int, ids: seq<int>): State {
    if ids == [] then s
    else Emit(EmitDeletes(s, chat, ids[..|ids| - 1]), ToSerial(Delete(chat, ids[|ids| - 1])))
  }

  // ---------------------------------------------------------------- administrators

  function AdminsIn(members: Members): seq<Admin> {
    if members == [] then []
    else
      var m := members[|members| - 1];
      AdminsIn(members[..|members| - 1]) + if m.Some? then [m.value] else []
  }

  function EnsureAdmins(s: State, members: Members): State {
    if members == [] then s
    else
      var s1, m := EnsureAdmins(s, members[..|members| - 1]), members[|members| - 1];
      if m.Some? then EnsureUser(s1, m.value.userId) else s1
  }

  /** Save the administrators as users, then sync the list unless it is empty. */
  function EmitAdmins(s: State, chat: int, members: Members): State {
    var s1, admins := EnsureAdmins(s, members), AdminsIn(members);
    if admins != [] then Emit(s1, ToSerial(SyncAdmins(chat, admins))) else s1
  }

  function RequestAdmins(s: State, group: int, chat: int): State {
    SendQuery(s, GetMembers(group, chat), Some(FetchAdmins(chat)))
  }

  predicate IsDenial(o: Object) {
    o.ErrorObject? && (o.code == 400 || o.code == 403)
  }

  /** One more permission error; after a few in a row the chat is no longer polled. */
  function MissCounted(c: Core, chat: int): Core {
    var n := (if chat in c.pollMiss then c.pollMiss[chat] else 0) + 1;
    c.(pollMiss := c.pollMiss[chat := n], pollSet := if n >= ADMIN_POLL_MAX_MISS then c.pollSet - {chat} else c.pollSet)
  }

  function AdminsArrived(s: State, chat: int, o: Object): State {
    if o.MembersObject? then EmitAdmins(WithMisses(s, s.core.pollMiss - {chat}), chat, o.members)
    else if IsDenial(o) then s.(core := MissCounted(s.core, chat))
    else s
  }

  /** arm_admin_alarm */
  function ArmAlarm(s: State): State {
    SendQuery(s, SetAlarm, Some(Alarm))
  }

  /** The chat can be polled: its group is known. */
  predicate Pollable(c: Core, chat: int) {
    chat in c.chatGroup && c.chatGroup[chat] in c.groups
  }

  /** The query that refreshes the administrators of one group. */
  function Refresh(s: State, chat: int): State
    requires Pollable(s.core, chat)
  {
    var group := s.core.chatGroup[chat];
    if s.core.groups[group].kind == BasicGroup then SendQuery(s, GetBasicGroupInfo(group), None)
    else RequestAdmins(s, group, chat)
  }

  /** The queue after its front was looked at: an evicted chat is dropped, another one put at the rear. */
  function TurnOnce(tracked: set<int>, queue: seq<int>): seq<int>
    requires queue != []
  {
    if queue[0] in tracked then queue[1..] + [queue[0]] else queue[1..]
  }

  /** The front chat is refreshed. */
  predicate IsHit(s: State)
    requires s.core.pollQueue != []
  {
    s.core.pollQueue[0] in s.core.pollSet && Pollable(s.core, s.core.pollQueue[0])
  }

  function Look(s: State): State
    requires s.core.pollQueue != []
  {
    var s1 := WithQueue(s, TurnOnce(s.core.pollSet, s.core.pollQueue));
    if IsHit(s) then Refresh(s1, s.core.pollQueue[0]) else s1
  }

  /** poll_admin_batch: at most `scan` more chats of the queue are looked at, `polled` were refreshed. */
  function Poll(s: State, polled: nat, scan: nat): State
    decreases scan
  {
    if polled < s.core.batch && scan > 0 && s.core.pollQueue != [] then
      Poll(Look(s), if IsHit(s) then polled + 1 else polled, scan - 1)
    else s
  }

  /** on_admin_alarm */
  function AlarmRang(s: State): State {
    if s.core.stopped || s.core.closing then s
    else ArmAlarm(if s.core.authorized then Poll(s, 0, |s.core.pollQueue|) else s)
  }

  // ---------------------------------------------------------------- groups

  function StateOfGroup(s: State, group: int): GroupState {
    if group in s.core.groups then s.core.groups[group] else GroupState(BasicGroup, 0, false)
  }

  /** A supergroup already known to be a channel stays one. */
  function StateOfChat(s: State, chat: TdChat): GroupState
    requires !chat.kind.NotAGroup?
  {
    var kind :=
      if chat.kind.group in s.supergroups && s.supergroups[chat.kind.group] then Channel
      else if chat.kind.IsBasicGroup? then BasicGroup
      else if chat.kind.isChannel then Channel
      else Supergroup;
    GroupState(kind, chat.id, true)
  }

  function RequestGroupInfo(s: State, kind: ChatKind): State
    requires !kind.NotAGroup?
  {
    SendQuery(s, if kind.IsBasicGroup? then GetBasicGroupInfo(kind.group) else GetSupergroupInfo(kind.group), None)
  }

  /** The part of handle_new_chat up to admin tracking. */
  function RecordChat(s: State, chat: TdChat): State
    requires !chat.kind.NotAGroup?
  {
    var group := chat.kind.group;
    var s1 := WithChat(WithGroup(s, group, StateOfChat(s, chat)), chat.id, group);
    DownloadGroupPhoto(RequestGroupInfo(EmitGroup(s1, group), chat.kind), chat.id, chat.photo)
  }

  /** Start polling the administrators of a chat seen for the first time. */
  function Track(s: State, chat: TdChat): State
    requires !chat.kind.NotAGroup?
  {
    var s1 := WithQueue(WithPollSet(s, s.core.pollSet + {chat.id}), s.core.pollQueue + [chat.id]);
    if chat.kind.IsSupergroup? then RequestAdmins(s1, chat.kind.group, chat.id) else s1
  }

  function ChatArrived(s: State, chat: TdChat, fromList: bool): State {
    if chat.kind.NotAGroup? then s
    else
      var s1 := RecordChat(s, chat);
      if fromList && chat.kind.group !in s.core.groups && chat.id !in s1.core.pollSet then Track(s1, chat) else s1
  }

  function BasicGroupInfoArrived(s: State, group: int, members: Members): State {
    var s1 := WithGroup(s, group, StateOfGroup(s, group));
    var st := s1.core.groups[group];
    if !st.seen then s1
    else
      var s2 := EmitGroup(s1, group);
      if st.chat in s2.core.pollSet then EmitAdmins(s2, st.chat, members) else s2
  }

  function SupergroupChanged(s: State, group: int, isChannel: bool): State {
    var s1 := WithSupergroup(s, group, isChannel);
    if group in s1.core.groups then
      EmitGroup(WithGroup(s1, group, s1.core.groups[group].(kind := if isChannel then Channel else Supergroup)), group)
    else s1
  }

  // ---------------------------------------------------------------- dispatch

  /** The full info of a user is requested once, on first sight. */
  function UserUpdated(s: State, user: TdUser): State {
    var s1 := UserArrived(s, user);
    if user.id in s.users then s1 else SendQuery(s1, GetUserInfo(user.id), Some(FetchInfo(user.id)))
  }

  function AuthorizationChanged(s: State, auth: Authorization): State {
    match auth
    case Asking => SendQuery(s, OtherQuery, Some(Ignore))
    case Ready =>
      var s1 := SendQuery(WithAuthorized(s, true), OtherQuery, Some(Ignore));
      if !s1.core.pollStarted && s1.core.pollEnabled then ArmAlarm(WithPollStarted(s1)) else s1
    case LoggingOut => WithAuthorized(s, false)
    case Closing => s
    case Closed => WithStopped(s)
  }

  /** process_update */
  function AfterUpdate(s: State, u: Update): State {
    match u
    case AuthorizationState(auth) => AuthorizationChanged(s, auth)
    case User(user) => UserUpdated(s, user)
    case UserFullInfo(user) => Emit(s, ToSerial(SaveInfo(user)))
    case FileUpdate(f) => FileArrived(s, f)
    case NewChat(chat) => ChatArrived(s, chat, true)
    case ChatTitle(chat) => if chat in s.core.chatGroup then EmitGroup(s, s.core.chatGroup[chat]) else s
    case ChatPhoto(chat, photo) => if chat in s.core.chatGroup then DownloadGroupPhoto(s, chat, photo) else s
    case SupergroupUpdate(group, isChannel) => SupergroupChanged(s, group, isChannel)
    case SupergroupFullInfo(group) => EmitGroup(WithGroup(s, group, StateOfGroup(s, group)), group)
    case BasicGroupFullInfo(group, members) => BasicGroupInfoArrived(s, group, members)
    case NewMessage(m) => HandleTopMessage(s, m)
    case MessageEdited(key) => SendQuery(s, GetEdited(key), Some(FetchEdited))
    case DeleteMessages(chat, ids) => EmitDeletes(s, chat, ids)
    case OtherUpdate => s
  }

  /** A continuation runs on the answer it waited for. */
  function Resume(s: State, c: Cont, o: Object): State {
    match c
    case Alarm => AlarmRang(s)
    case FetchReply(_, _, _, _) => ReplyArrived(s, c, o)
    case FetchEdited => if o.MessageObject? then HandleTopMessage(s, o.m) else s
    case FetchAdmins(chat) => AdminsArrived(s, chat, o)
    case FetchChat => if o.ChatObject? then ChatArrived(s, o.chat, false) else s
    case FetchUser => if o.UserObject? then UserArrived(s, o.user) else s
    case FetchInfo(user) => if o.UserInfoObject? then Emit(s, ToSerial(SaveInfo(user))) else s
    case Ignore => s
  }

  /** process_response, and the close call of the program */
  function Step(s: State, e: Event): State {
    match e
    case Updated(u) => AfterUpdate(s, u)
    case Answered(id, o) =>
      if id in s.handlers then Resume(WithHandlers(s, s.handlers - {id}), s.handlers[id], o) else s
    case CloseRequested => SendQuery(WithClosing(s), OtherQuery, None)
  }

  // ---------------------------------------------------------------- runs

  function Run(s: State, events: seq<Event>): State {
    if events == [] then s else Step(Run(s, events[..|events| - 1]), events[|events| - 1])
  }

  /**
   What is taken from Telegram: a chat belongs to one group, and getMessage returns the message asked for by
   the query that is answered.
   */
  ghost predicate Plausible(s: State, e: Event) {
    && (ChatIn(e).Some? ==> SameGroup(s, ChatIn(e).value))
    && (e.Answered? && e.o.MessageObject? && 1 <= e.id <= |s.sent| && s.sent[e.id - 1].GetReplied? ==>
          e.o.m.Key() == s.sent[e.id - 1].key)
  }

  /** The chat that the event brings. */
  function ChatIn(e: Event): Option<TdChat> {
    if e.Updated? && e.u.NewChat? then Some(e.u.chat)
    else if e.Answered? && e.o.ChatObject? then Some(e.o.chat)
    else None
  }

  ghost predicate SameGroup(s: State, chat: TdChat) {
    chat.id in s.core.chatGroup && !chat.kind.NotAGroup? ==> s.core.chatGroup[chat.id] == chat.kind.group
  }

  ghost predicate PlausibleRun(s: State, events: seq<Event>) {
    forall i :: 0 <= i < |events| ==> Plausible(Run(s, events[..i]), events[i])
  }
}
