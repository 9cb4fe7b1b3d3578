/**
 What the loop does on each event, as seen from outside: the jobs it emits, the queries it sends and the
 continuations it stores for them, in order.  Jobs and queries of an event are listed from what the loop knew
 before the event; the functions of module EventLoop pass the state from helper to helper.
 */
module EventTraffic {
  import opened Common
  import opened Models
  import opened EventLoop
  import opened EventLoopView
  import opened EventLoopEffects
  import opened EventLoopProtocols

  datatype Ask = Ask(q: Query, cont: Option<Cont>)

  function Queries(asks: seq<Ask>): seq<Query> {
    seq(|asks|, i requires 0 <= i < |asks| => asks[i].q)
  }

  /** The handlers after the queries, whose ids follow `last`. */
  function Stored(handlers: map<nat, Cont>, last: nat, asks: seq<Ask>): map<nat, Cont> {
    if asks == [] then handlers
    else
      var h, ask := Stored(handlers, last, asks[..|asks| - 1]), asks[|asks| - 1];
      if ask.cont.Some? then h[last + |asks| := ask.cont.value] else h
  }

  /** From s to s' exactly these jobs are emitted, and exactly these queries sent. */
  ghost predicate Traffic(s: State, s': State, jobs: seq<Emission>, asks: seq<Ask>) {
    && s'.script == s.script + jobs && s'.sent == s.sent + Queries(asks)
    && s'.queryId == s.queryId + |asks| && s'.handlers == Stored(s.handlers, s.queryId, asks)
  }

  /** Without the history. */
  function Bare(c: Core): Core {
    c.(replies := [], roots := 0)
  }

  /** All that the loop remembers but downloads in flight. */
  function Memory(s: State): (set<int>, map<int, bool>, Core) {
    (s.users, s.supergroups, Bare(s.core))
  }

  /** The same with the memory unchanged. */
  ghost predicate Does(s: State, s': State, jobs: seq<Emission>, asks: seq<Ask>) {
    Traffic(s, s', jobs, asks) && Memory(s') == Memory(s)
  }

  // ---------------------------------------------------------------- one thing after the other

  lemma {:induction false} StoredConcat(handlers: map<nat, Cont>, last: nat, a: seq<Ask>, b: seq<Ask>)
    ensures Stored(Stored(handlers, last, a), last + |a|, b) == Stored(handlers, last, a + b)
  {
    if b == [] {
      assert a + b == a;
    } else {
      StoredConcat(handlers, last, a, b[..|b| - 1]);
      assert (a + b)[..|a + b| - 1] == a + b[..|b| - 1];
    }
  }

  lemma TrafficTrans(s: State, s1: State, s2: State, j1: seq<Emission>, a1: seq<Ask>, j2: seq<Emission>, a2: seq<Ask>)
    requires Traffic(s, s1, j1, a1) && Traffic(s1, s2, j2, a2)
    ensures Traffic(s, s2, j1 + j2, a1 + a2)
  {
    StoredConcat(s.handlers, s.queryId, a1, a2);
    assert Queries(a1 + a2) == Queries(a1) + Queries(a2);
    assert s2.script == s.script + (j1 + j2);
    assert s2.sent == s.sent + (Queries(a1) + Queries(a2));
  }

  lemma NoTraffic(s: State, s': State)
    requires s'.script == s.script && s'.sent == s.sent && s'.queryId == s.queryId && s'.handlers == s.handlers
    ensures Traffic(s, s', [], [])
  {
    assert Queries([]) == [];
    assert s'.script == s.script + [] && s'.sent == s.sent + Queries([]);
  }

  lemma EmitDoes(s: State, e: Emission)
    ensures Does(s, Emit(s, e), [e], [])
  {
    assert Queries([]) == [];
  }

  lemma SendDoes(s: State, q: Query, cont: Option<Cont>)
    ensures Does(s, SendQuery(s, q, cont), [], [Ask(q, cont)])
  {
    var ask := Ask(q, cont);
    assert Queries([ask]) == [q];
    assert [ask][..0] == [];
    assert Stored(s.handlers, s.queryId, []) == s.handlers;
  }

  lemma NothingDoes(s: State)
    ensures Does(s, s, [], [])
  {
    NoTraffic(s, s);
  }

  lemma DoesTrans(s: State, s1: State, s2: State, j1: seq<Emission>, a1: seq<Ask>, j2: seq<Emission>, a2: seq<Ask>)
    requires Does(s, s1, j1, a1) && Does(s1, s2, j2, a2)
    ensures Does(s, s2, j1 + j2, a1 + a2)
  {
    TrafficTrans(s, s1, s2, j1, a1, j2, a2);
  }

  // ---------------------------------------------------------------- users, groups and files

  function SaveOf(row: Entity): Emission {
    ToSerial(Save(row))
  }

  /** A known user is saved again. */
  function UserJobs(s: State, user: int): seq<Emission> {
    if user != 0 && user in s.users then [SaveOf(UserRow(user))] else []
  }

  /** An unknown one is requested. */
  function UserAsks(s: State, user: int): seq<Ask> {
    if user != 0 && user !in s.users then [Ask(GetUser(user), Some(FetchUser))] else []
  }

  /** A group is saved under its chat once the chat has been seen. */
  function GroupJobs(s: State, group: int): seq<Emission> {
    if group in s.core.groups && s.core.groups[group].seen then [SaveOf(GroupRow(s.core.groups[group].chat))] else []
  }

  /** Private chats have no row of their own. */
  function ChatJobs(s: State, chat: int): seq<Emission> {
    if chat < 0 && chat in s.core.chatGroup then GroupJobs(s, s.core.chatGroup[chat]) else []
  }

  function ChatAsks(s: State, chat: int): seq<Ask> {
    if chat < 0 && chat !in s.core.chatGroup then [Ask(GetChat(chat), Some(FetchChat))] else []
  }

  /** A file that is there is stored, another one downloaded. */
  function FileJobs(row: Entity, f: Option<File>): seq<Emission> {
    if f.Some? && f.value.done then [ToFiles(StoreFile(row))] else []
  }

  function FileAsks(f: Option<File>): seq<Ask> {
    if f.Some? && !f.value.done then [Ask(Download(f.value.id), None)] else []
  }

  lemma EnsureUserDoes(s: State, user: int)
    ensures Does(s, EnsureUser(s, user), UserJobs(s, user), UserAsks(s, user))
  {
    if user == 0 {
      NothingDoes(s);
    } else if user in s.users {
      EmitDoes(s, SaveOf(UserRow(user)));
    } else {
      SendDoes(s, GetUser(user), Some(FetchUser));
    }
  }

  lemma EmitGroupDoes(s: State, group: int)
    ensures Does(s, EmitGroup(s, group), GroupJobs(s, group), [])
  {
    if GroupJobs(s, group) == [] {
      NothingDoes(s);
    } else {
      EmitDoes(s, SaveOf(GroupRow(s.core.groups[group].chat)));
    }
  }

  lemma EnsureChatDoes(s: State, chat: int)
    ensures Does(s, EnsureChat(s, chat), ChatJobs(s, chat), ChatAsks(s, chat))
  {
    if chat >= 0 {
      NothingDoes(s);
    } else if chat in s.core.chatGroup {
      EmitGroupDoes(s, s.core.chatGroup[chat]);
    } else {
      SendDoes(s, GetChat(chat), Some(FetchChat));
    }
  }

  lemma MessageFileDoes(s: State, m: TdMessage)
    ensures Does(s, DownloadMessageFile(s, m), FileJobs(m.Row(), m.file), FileAsks(m.file))
  {
    if m.file.None? {
      NothingDoes(s);
    } else if m.file.value.done {
      EmitDoes(s, ToFiles(StoreFile(m.Row())));
    } else {
      SendDoes(WithMessageFiles(s, s.pendingMessageFile[m.file.value.id := m.Key()]), Download(m.file.value.id), None);
    }
  }

  lemma GroupPhotoDoes(s: State, chat: int, photo: Option<File>)
    ensures Does(s, DownloadGroupPhoto(s, chat, photo), FileJobs(GroupRow(chat), photo), FileAsks(photo))
  {
    if photo.None? {
      NothingDoes(s);
    } else if photo.value.done {
      EmitDoes(s, ToFiles(StoreFile(GroupRow(chat))));
    } else {
      SendDoes(WithGroupPhotos(s, s.pendingGroupPhoto[photo.value.id := chat]), Download(photo.value.id), None);
    }
  }

  lemma ProfilePhotoDoes(s: State, u: TdUser)
    ensures Does(s, DownloadProfilePhoto(s, u), FileJobs(UserRow(u.id), u.photo), FileAsks(u.photo))
  {
    if u.photo.None? {
      NothingDoes(s);
    } else if u.photo.value.done {
      EmitDoes(s, ToFiles(StoreFile(UserRow(u.id))));
    } else {
      SendDoes(WithPhotos(s, s.pendingPhoto[u.photo.value.id := u.id]), Download(u.photo.value.id), None);
    }
  }

  // ---------------------------------------------------------------- messages and replies

  function OriginJobs(s: State, m: TdMessage): seq<Emission> {
    (if m.originUser.Some? then UserJobs(s, m.originUser.value) else [])
    + (if m.originChat.Some? then ChatJobs(s, m.originChat.value) else [])
  }

  function OriginAsks(s: State, m: TdMessage): seq<Ask> {
    (if m.originUser.Some? then UserAsks(s, m.originUser.value) else [])
    + (if m.originChat.Some? then ChatAsks(s, m.originChat.value) else [])
  }

  /** The chat or peer of a fetched message, and its sender. */
  function EntityJobs(s: State, m: TdMessage): seq<Emission> {
    (if m.chat > 0 then UserJobs(s, m.chat) else ChatJobs(s, m.chat))
    + (match m.sender
       case NoSender => []
       case UserSender(user) => UserJobs(s, user)
       case ChatSender(chat) => ChatJobs(s, chat))
  }

  function EntityAsks(s: State, m: TdMessage): seq<Ask> {
    (if m.chat > 0 then UserAsks(s, m.chat) else ChatAsks(s, m.chat))
    + (match m.sender
       case NoSender => []
       case UserSender(user) => UserAsks(s, user)
       case ChatSender(chat) => ChatAsks(s, chat))
  }

  /** A reply to a message that was saved already, or one too deep, is linked at once. */
  function ReplyJobs(s: State, m: TdMessage, depth: nat): seq<Emission> {
    var target := m.ReplyTarget();
    if target.None? then []
    else if target.value in s.core.resolved then [LinkJob(m.Key(), target.value, AlreadySaved)]
    else if depth >= 128 then [LinkJob(m.Key(), target.value, DepthCap)]
    else []
  }

  /** Otherwise the replied message is asked for. */
  function ReplyAsks(s: State, m: TdMessage, depth: nat, root: nat): seq<Ask> {
    var target := m.ReplyTarget();
    if target.None? || target.value in s.core.resolved || depth >= 128 then []
    else [Ask(GetReplied(target.value, depth, root), Some(FetchReply(m.Key(), target.value, depth, root)))]
  }

  function MessageJobs(s: State, m: TdMessage, depth: nat): seq<Emission> {
    OriginJobs(s, m) + [SaveOf(m.Row())] + FileJobs(m.Row(), m.file) + ReplyJobs(s, m, depth)
  }

  function MessageAsks(s: State, m: TdMessage, depth: nat, root: nat): seq<Ask> {
    OriginAsks(s, m) + FileAsks(m.file) + ReplyAsks(s, m, depth, root)
  }

  lemma ResolveOriginDoes(s: State, m: TdMessage)
    ensures Does(s, ResolveOrigin(s, m), OriginJobs(s, m), OriginAsks(s, m))
  {
    var j := if m.originUser.Some? then UserJobs(s, m.originUser.value) else [];
    var a := if m.originUser.Some? then UserAsks(s, m.originUser.value) else [];
    var s1 := if m.originUser.Some? then EnsureUser(s, m.originUser.value) else s;
    if m.originUser.Some? {
      EnsureUserDoes(s, m.originUser.value);
    } else {
      NothingDoes(s);
    }
    if m.originChat.Some? {
      var chat := m.originChat.value;
      EnsureChatDoes(s1, chat);
      DoesTrans(s, s1, EnsureChat(s1, chat), j, a, ChatJobs(s, chat), ChatAsks(s, chat));
    } else {
      assert j + [] == j && a + [] == a;
    }
  }

  lemma SenderDoes(s: State, s1: State, m: TdMessage, j: seq<Emission>, a: seq<Ask>)
    requires Does(s, s1, j, a) && !m.sender.NoSender?
    ensures m.sender.UserSender? ==>
      Does(s, EnsureUser(s1, m.sender.user), j + UserJobs(s, m.sender.user), a + UserAsks(s, m.sender.user))
    ensures m.sender.ChatSender? ==>
      Does(s, EnsureChat(s1, m.sender.chat), j + ChatJobs(s, m.sender.chat), a + ChatAsks(s, m.sender.chat))
  {
    if m.sender.UserSender? {
      var user := m.sender.user;
      EnsureUserDoes(s1, user);
      DoesTrans(s, s1, EnsureUser(s1, user), j, a, UserJobs(s, user), UserAsks(s, user));
    } else {
      var chat := m.sender.chat;
      EnsureChatDoes(s1, chat);
      DoesTrans(s, s1, EnsureChat(s1, chat), j, a, ChatJobs(s, chat), ChatAsks(s, chat));
    }
  }

  lemma EnsureEntitiesDoes(s: State, m: TdMessage)
    ensures Does(s, EnsureEntities(s, m), EntityJobs(s, m), EntityAsks(s, m))
  {
    var j := if m.chat > 0 then UserJobs(s, m.chat) else ChatJobs(s, m.chat);
    var a := if m.chat > 0 then UserAsks(s, m.chat) else ChatAsks(s, m.chat);
    var s1 := if m.chat > 0 then EnsureUser(s, m.chat) else EnsureChat(s, m.chat);
    if m.chat > 0 {
      EnsureUserDoes(s, m.chat);
    } else {
      EnsureChatDoes(s, m.chat);
    }
    if m.sender.NoSender? {
      assert j + [] == j && a + [] == a;
    } else {
      SenderDoes(s, s1, m, j, a);
    }
  }

  lemma ResolveReplyDoes(s: State, m: TdMessage, depth: nat, root: nat)
    ensures Does(s, ResolveReply(s, m, depth, root), ReplyJobs(s, m, depth), ReplyAsks(s, m, depth, root))
  {
    var reply := m.ReplyTarget();
    if reply.None? {
      NothingDoes(s);
    } else {
      var target := reply.value;
      var s1 := WithReply(s, m.Key(), target);
      assert Memory(s1) == Memory(s);
      if target in s.core.resolved {
        EmitDoes(s1, LinkJob(m.Key(), target, AlreadySaved));
      } else if depth >= 128 {
        EmitDoes(s1, LinkJob(m.Key(), target, DepthCap));
      } else {
        SendDoes(s1, GetReplied(target, depth, root), Some(FetchReply(m.Key(), target, depth, root)));
      }
    }
  }

  lemma SaveMessageDoes(s: State, m: TdMessage)
    ensures var s1 := DownloadMessageFile(Emit(ResolveOrigin(s, m), SaveOf(m.Row())), m);
      Does(s, s1, OriginJobs(s, m) + [SaveOf(m.Row())] + FileJobs(m.Row(), m.file), OriginAsks(s, m) + FileAsks(m.file))
  {
    var s1 := ResolveOrigin(s, m);
    var s2 := Emit(s1, SaveOf(m.Row()));
    ResolveOriginDoes(s, m);
    EmitDoes(s1, SaveOf(m.Row()));
    DoesTrans(s, s1, s2, OriginJobs(s, m), OriginAsks(s, m), [SaveOf(m.Row())], []);
    assert OriginAsks(s, m) + [] == OriginAsks(s, m);
    MessageFileDoes(s2, m);
    DoesTrans(s, s2, DownloadMessageFile(s2, m), OriginJobs(s, m) + [SaveOf(m.Row())], OriginAsks(s, m),
              FileJobs(m.Row(), m.file), FileAsks(m.file));
  }

  lemma SameReplies(s: State, s1: State, m: TdMessage, depth: nat, root: nat)
    requires Memory(s1) == Memory(s)
    ensures ReplyJobs(s1, m, depth) == ReplyJobs(s, m, depth)
    ensures ReplyAsks(s1, m, depth, root) == ReplyAsks(s, m, depth, root)
  {
    assert Bare(s1.core).resolved == Bare(s.core).resolved;
  }

  lemma HandleMessageDoes(s: State, m: TdMessage, depth: nat, root: nat)
    ensures Does(s, HandleMessage(s, m, depth, root), MessageJobs(s, m, depth), MessageAsks(s, m, depth, root))
  {
    var s1 := DownloadMessageFile(Emit(ResolveOrigin(s, m), SaveOf(m.Row())), m);
    SaveMessageDoes(s, m);
    ResolveReplyDoes(s1, m, depth, root);
    SameReplies(s, s1, m, depth, root);
    DoesTrans(s, s1, ResolveReply(s1, m, depth, root),
              OriginJobs(s, m) + [SaveOf(m.Row())] + FileJobs(m.Row(), m.file), OriginAsks(s, m) + FileAsks(m.file),
              ReplyJobs(s, m, depth), ReplyAsks(s, m, depth, root));
  }

  /** A message not fetched as a reply target. */
  lemma TopMessageDoes(s: State, m: TdMessage)
    ensures Does(s, HandleTopMessage(s, m), MessageJobs(s, m, 0), MessageAsks(s, m, 0, s.core.roots))
  {
    var s1 := WithRoot(s);
    assert Memory(s1) == Memory(s);
    HandleMessageDoes(s1, m, 0, s.core.roots);
    SameMessages(s, s1, m, 0, s.core.roots);
    SameStart(s, s1, HandleTopMessage(s, m), MessageJobs(s, m, 0), MessageAsks(s, m, 0, s.core.roots));
  }

  /** The fetched message's chat and sender, the message itself, one step deeper, and the link last. */
  function FetchedJobs(s: State, src: Key, target: Key, depth: nat, r: TdMessage): seq<Emission> {
    EntityJobs(s, r) + MessageJobs(MarkResolved(s, target), r, depth + 1) + [LinkJob(src, target, Fetched)]
  }

  function FetchedAsks(s: State, target: Key, depth: nat, root: nat, r: TdMessage): seq<Ask> {
    EntityAsks(s, r) + MessageAsks(MarkResolved(s, target), r, depth + 1, root)
  }

  lemma FetchedWalkDoes(s1: State, depth: nat, root: nat, r: TdMessage)
    ensures Does(s1, HandleMessage(EnsureEntities(s1, r), r, depth, root),
                 EntityJobs(s1, r) + MessageJobs(s1, r, depth), EntityAsks(s1, r) + MessageAsks(s1, r, depth, root))
  {
    var s2 := EnsureEntities(s1, r);
    EnsureEntitiesDoes(s1, r);
    HandleMessageDoes(s2, r, depth, root);
    SameMessages(s1, s2, r, depth, root);
    DoesTrans(s1, s2, HandleMessage(s2, r, depth, root), EntityJobs(s1, r), EntityAsks(s1, r),
              MessageJobs(s1, r, depth), MessageAsks(s1, r, depth, root));
  }

  lemma SameMessages(s: State, s1: State, m: TdMessage, depth: nat, root: nat)
    requires Memory(s1) == Memory(s)
    ensures MessageJobs(s1, m, depth) == MessageJobs(s, m, depth)
    ensures MessageAsks(s1, m, depth, root) == MessageAsks(s, m, depth, root)
  {
    SameReplies(s, s1, m, depth, root);
  }

  /** Nothing is emitted or sent between s and s1. */
  lemma SameStart(s: State, s1: State, s': State, jobs: seq<Emission>, asks: seq<Ask>)
    requires s1.script == s.script && s1.sent == s.sent && s1.queryId == s.queryId && s1.handlers == s.handlers
    requires Traffic(s1, s', jobs, asks)
    ensures Traffic(s, s', jobs, asks)
  {
  }

  lemma LinkLast(s1: State, s3: State, link: Emission, jobs: seq<Emission>, asks: seq<Ask>)
    requires Does(s1, s3, jobs, asks)
    ensures Does(s1, Emit(s3, link), jobs + [link], asks)
  {
    EmitDoes(s3, link);
    DoesTrans(s1, s3, Emit(s3, link), jobs, asks, [link], []);
    assert asks + [] == asks;
  }

  /** Users and groups are as known before the target is marked. */
  lemma MarkedEntities(s: State, target: Key, r: TdMessage)
    ensures EntityJobs(MarkResolved(s, target), r) == EntityJobs(s, r)
    ensures EntityAsks(MarkResolved(s, target), r) == EntityAsks(s, r)
  {
  }

  lemma ReplyFetchedDoes(s: State, src: Key, target: Key, depth: nat, root: nat, r: TdMessage)
    ensures var s' := ReplyFetched(s, src, target, depth, root, r);
      && Traffic(s, s', FetchedJobs(s, src, target, depth, r), FetchedAsks(s, target, depth, root, r))
      && Memory(s') == Memory(MarkResolved(s, target))
  {
    var s1, link := MarkResolved(s, target), LinkJob(src, target, Fetched);
    var s3 := HandleMessage(EnsureEntities(s1, r), r, depth + 1, root);
    FetchedWalkDoes(s1, depth + 1, root, r);
    MarkedEntities(s, target, r);
    var jobs := EntityJobs(s, r) + MessageJobs(s1, r, depth + 1);
    LinkLast(s1, s3, link, jobs, FetchedAsks(s, target, depth, root, r));
    SameStart(s, s1, Emit(s3, link), jobs + [link], FetchedAsks(s, target, depth, root, r));
  }

  function DeleteJobs(chat: int, ids: seq<int>): seq<Emission> {
    seq(|ids|, i requires 0 <= i < |ids| => ToSerial(Delete(chat, ids[i])))
  }

  lemma {:induction false} EmitDeletesDoes(s: State, chat: int, ids: seq<int>)
    ensures Does(s, EmitDeletes(s, chat, ids), DeleteJobs(chat, ids), [])
  {
    if ids == [] {
      NothingDoes(s);
    } else {
      var front, last := ids[..|ids| - 1], ids[|ids| - 1];
      var s1 := EmitDeletes(s, chat, front);
      EmitDeletesDoes(s, chat, front);
      EmitDoes(s1, ToSerial(Delete(chat, last)));
      DoesTrans(s, s1, EmitDeletes(s, chat, ids), DeleteJobs(chat, front), [], [ToSerial(Delete(chat, last))], []);
      assert DeleteJobs(chat, ids) == DeleteJobs(chat, front) + [ToSerial(Delete(chat, last))];
    }
  }

  // ---------------------------------------------------------------- administrators

  function SaveJobs(s: State, admins: seq<Admin>): seq<Emission> {
    if admins == [] then [] else SaveJobs(s, admins[..|admins| - 1]) + UserJobs(s, admins[|admins| - 1].userId)
  }

  function SaveAsks(s: State, admins: seq<Admin>): seq<Ask> {
    if admins == [] then [] else SaveAsks(s, admins[..|admins| - 1]) + UserAsks(s, admins[|admins| - 1].userId)
  }

  /** The administrators are saved as users, and then, if there are any, handed over all at once. */
  function AdminJobs(s: State, chat: int, admins: seq<Admin>): seq<Emission> {
    SaveJobs(s, admins) + if admins != [] then [ToSerial(SyncAdmins(chat, admins))] else []
  }

  lemma {:induction false} EnsureAdminsDoes(s: State, members: Members)
    ensures Does(s, EnsureAdmins(s, members), SaveJobs(s, AdminsIn(members)), SaveAsks(s, AdminsIn(members)))
  {
    if members == [] {
      NothingDoes(s);
    } else {
      var front, m := members[..|members| - 1], members[|members| - 1];
      var s1, admins := EnsureAdmins(s, front), AdminsIn(front);
      EnsureAdminsDoes(s, front);
      if m.Some? {
        var user := m.value.userId;
        EnsureUserDoes(s1, user);
        DoesTrans(s, s1, EnsureUser(s1, user), SaveJobs(s, admins), SaveAsks(s, admins),
                  UserJobs(s, user), UserAsks(s, user));
        assert AdminsIn(members) == admins + [m.value] && (admins + [m.value])[..|admins|] == admins;
      } else {
        assert AdminsIn(members) == admins;
      }
    }
  }

  lemma EmitAdminsDoes(s: State, chat: int, members: Members)
    ensures Does(s, EmitAdmins(s, chat, members), AdminJobs(s, chat, AdminsIn(members)), SaveAsks(s, AdminsIn(members)))
  {
    var s1, admins := EnsureAdmins(s, members), AdminsIn(members);
    EnsureAdminsDoes(s, members);
    if admins == [] {
      assert SaveJobs(s, admins) + [] == SaveJobs(s, admins);
    } else {
      EmitDoes(s1, ToSerial(SyncAdmins(chat, admins)));
      DoesTrans(s, s1, EmitAdmins(s, chat, members), SaveJobs(s, admins), SaveAsks(s, admins),
                [ToSerial(SyncAdmins(chat, admins))], []);
      assert SaveAsks(s, admins) + [] == SaveAsks(s, admins);
    }
  }

  // ---------------------------------------------------------------- polling

  /** The front chat, if it is refreshed. */
  function FrontHit(s: State): seq<int>
    requires s.core.pollQueue != []
  {
    if IsHit(s) then [s.core.pollQueue[0]] else []
  }

  /** The chats that poll_admin_batch refreshes, in order. */
  function Refreshed(s: State, polled: nat, scan: nat): seq<int>
    decreases scan
  {
    if polled < s.core.batch && scan > 0 && s.core.pollQueue != [] then
      FrontHit(s) + Refreshed(Look(s), if IsHit(s) then polled + 1 else polled, scan - 1)
    else []
  }

  /** The query that refreshes a chat: a basic group's members come with its full info. */
  function RefreshAsk(c: Core, chat: int): Ask
    requires Pollable(c, chat)
  {
    var group := c.chatGroup[chat];
    if c.groups[group].kind == BasicGroup then Ask(GetBasicGroupInfo(group), None)
    else Ask(GetMembers(group, chat), Some(FetchAdmins(chat)))
  }

  function RefreshAsks(c: Core, chats: seq<int>): seq<Ask>
    requires Known(c, chats)
  {
    if chats == [] then [] else [RefreshAsk(c, chats[0])] + RefreshAsks(c, chats[1..])
  }

  lemma RefreshDoes(s: State, chat: int)
    requires Pollable(s.core, chat)
    ensures Does(s, Refresh(s, chat), [], [RefreshAsk(s.core, chat)])
  {
    var ask := RefreshAsk(s.core, chat);
    SendDoes(s, ask.q, ask.cont);
  }

  lemma LookDoes(s: State)
    requires s.core.pollQueue != []
    ensures Known(s.core, FrontHit(s)) && Traffic(s, Look(s), [], RefreshAsks(s.core, FrontHit(s)))
    ensures Look(s).core == WithQueue(s, TurnOnce(s.core.pollSet, s.core.pollQueue)).core
  {
    var s1, chat := WithQueue(s, TurnOnce(s.core.pollSet, s.core.pollQueue)), s.core.pollQueue[0];
    NoTraffic(s, s1);
    if IsHit(s) {
      RefreshDoes(s1, chat);
      assert [chat][1..] == [] && RefreshAsks(s.core, [chat]) == [RefreshAsk(s.core, chat)];
    }
  }

  lemma {:induction false} SameAsks(c: Core, c': Core, chats: seq<int>)
    requires c'.chatGroup == c.chatGroup && c'.groups == c.groups && Known(c, chats)
    ensures Known(c', chats) && RefreshAsks(c', chats) == RefreshAsks(c, chats)
  {
    assert forall chat <- chats :: Pollable(c', chat) <==> Pollable(c, chat);
    if chats != [] {
      SameAsks(c, c', chats[1..]);
    }
  }

  lemma AsksConcat(c: Core, hit: seq<int>, rest: seq<int>)
    requires |hit| <= 1 && Known(c, hit) && Known(c, rest)
    ensures Known(c, hit + rest) && RefreshAsks(c, hit + rest) == RefreshAsks(c, hit) + RefreshAsks(c, rest)
  {
    if hit == [] {
      assert hit + rest == rest;
    } else {
      assert (hit + rest)[1..] == rest && hit[1..] == [];
    }
  }

  lemma LookThenPoll(s: State, s': State, rest: seq<int>)
    requires s.core.pollQueue != []
    requires Known(Look(s).core, rest) && Traffic(Look(s), s', [], RefreshAsks(Look(s).core, rest))
    ensures Known(s.core, FrontHit(s) + rest) && Traffic(s, s', [], RefreshAsks(s.core, FrontHit(s) + rest))
  {
    LookDoes(s);
    SameAsks(Look(s).core, s.core, rest);
    AsksConcat(s.core, FrontHit(s), rest);
    TrafficTrans(s, Look(s), s', [], RefreshAsks(s.core, FrontHit(s)), [], RefreshAsks(s.core, rest));
  }

  /** A tick emits no job, and asks once for each chat it refreshes. */
  lemma {:induction false} PollDoes(s: State, polled: nat, scan: nat)
    ensures Known(s.core, Refreshed(s, polled, scan))
    ensures Traffic(s, Poll(s, polled, scan), [], RefreshAsks(s.core, Refreshed(s, polled, scan)))
    decreases scan
  {
    if polled < s.core.batch && scan > 0 && s.core.pollQueue != [] {
      var polled' := if IsHit(s) then polled + 1 else polled;
      PollDoes(Look(s), polled', scan - 1);
      LookThenPoll(s, Poll(Look(s), polled', scan - 1), Refreshed(Look(s), polled', scan - 1));
    } else {
      NoTraffic(s, s);
    }
  }

  // ---------------------------------------------------------------- users and groups that arrive

  function UserArrivedJobs(u: TdUser): seq<Emission> {
    [SaveOf(UserRow(u.id))] + FileJobs(UserRow(u.id), u.photo)
  }

  lemma UserArrivedDoes(s: State, u: TdUser)
    ensures Traffic(s, UserArrived(s, u), UserArrivedJobs(u), FileAsks(u.photo))
    ensures Memory(UserArrived(s, u)) == Memory(WithUser(s, u.id))
  {
    var s1 := Emit(s, SaveOf(UserRow(u.id)));
    var s2 := DownloadProfilePhoto(s1, u);
    EmitDoes(s, SaveOf(UserRow(u.id)));
    ProfilePhotoDoes(s1, u);
    DoesTrans(s, s1, s2, [SaveOf(UserRow(u.id))], [], FileJobs(UserRow(u.id), u.photo), FileAsks(u.photo));
    assert [] + FileAsks(u.photo) == FileAsks(u.photo);
    UserRemembered(s, s2, UserArrivedJobs(u), FileAsks(u.photo), u.id);
  }

  lemma UserRemembered(s: State, s2: State, jobs: seq<Emission>, asks: seq<Ask>, user: int)
    requires Does(s, s2, jobs, asks)
    ensures Traffic(s, WithUser(s2, user), jobs, asks) && Memory(WithUser(s2, user)) == Memory(WithUser(s, user))
  {
  }

  /** The full info of a user is requested on first sight. */
  function UserUpdatedAsks(s: State, u: TdUser): seq<Ask> {
    FileAsks(u.photo) + if u.id !in s.users then [Ask(GetUserInfo(u.id), Some(FetchInfo(u.id)))] else []
  }

  lemma UserUpdatedDoes(s: State, u: TdUser)
    ensures Traffic(s, UserUpdated(s, u), UserArrivedJobs(u), UserUpdatedAsks(s, u))
    ensures Memory(UserUpdated(s, u)) == Memory(WithUser(s, u.id))
  {
    var s1 := UserArrived(s, u);
    UserArrivedDoes(s, u);
    if u.id in s.users {
      assert FileAsks(u.photo) + [] == FileAsks(u.photo);
    } else {
      var ask := Ask(GetUserInfo(u.id), Some(FetchInfo(u.id)));
      SendDoes(s1, ask.q, ask.cont);
      TrafficTrans(s, s1, UserUpdated(s, u), UserArrivedJobs(u), FileAsks(u.photo), [], [ask]);
      assert UserArrivedJobs(u) + [] == UserArrivedJobs(u);
    }
  }

  /** The row for which the file is being downloaded: users come before groups, and groups before messages. */
  function PendingRow(s: State, f: int): Option<Entity> {
    if f in s.pendingPhoto then Some(UserRow(s.pendingPhoto[f]))
    else if f in s.pendingGroupPhoto then Some(GroupRow(s.pendingGroupPhoto[f]))
    else if f in s.pendingMessageFile then Some(MessageRow(s.pendingMessageFile[f].0, s.pendingMessageFile[f].1))
    else None
  }

  function FileArrivedJobs(s: State, f: File): seq<Emission> {
    if f.done && PendingRow(s, f.id).Some? then [ToFiles(StoreFile(PendingRow(s, f.id).value))] else []
  }

  lemma FileArrivedDoes(s: State, f: File)
    ensures Does(s, FileArrived(s, f), FileArrivedJobs(s, f), [])
  {
    if FileArrivedJobs(s, f) == [] {
      NothingDoes(s);
    } else {
      var e := ToFiles(StoreFile(PendingRow(s, f.id).value));
      if f.id in s.pendingPhoto {
        EmitDoes(WithPhotos(s, s.pendingPhoto - {f.id}), e);
      } else if f.id in s.pendingGroupPhoto {
        EmitDoes(WithGroupPhotos(s, s.pendingGroupPhoto - {f.id}), e);
      } else {
        EmitDoes(WithMessageFiles(s, s.pendingMessageFile - {f.id}), e);
      }
    }
  }

  /** The chat is known to belong to its group, and the group was seen. */
  function Bind(s: State, chat: TdChat): State
    requires !chat.kind.NotAGroup?
  {
    WithChat(WithGroup(s, chat.kind.group, StateOfChat(s, chat)), chat.id, chat.kind.group)
  }

  function InfoAsk(kind: ChatKind): Ask
    requires !kind.NotAGroup?
  {
    Ask(if kind.IsBasicGroup? then GetBasicGroupInfo(kind.group) else GetSupergroupInfo(kind.group), None)
  }

  function ChatArrivedJobs(chat: TdChat): seq<Emission> {
    if chat.kind.NotAGroup? then [] else [SaveOf(GroupRow(chat.id))] + FileJobs(GroupRow(chat.id), chat.photo)
  }

  function RecordChatAsks(chat: TdChat): seq<Ask>
    requires !chat.kind.NotAGroup?
  {
    [InfoAsk(chat.kind)] + FileAsks(chat.photo)
  }

  lemma RecordChatDoes(s: State, chat: TdChat)
    requires !chat.kind.NotAGroup?
    ensures Traffic(s, RecordChat(s, chat), ChatArrivedJobs(chat), RecordChatAsks(chat))
    ensures Memory(RecordChat(s, chat)) == Memory(Bind(s, chat))
  {
    var s1, save, ask := Bind(s, chat), SaveOf(GroupRow(chat.id)), InfoAsk(chat.kind);
    var s2 := Emit(s1, save);
    var s3 := SendQuery(s2, ask.q, None);
    assert EmitGroup(s1, chat.kind.group) == s2 && RequestGroupInfo(s2, chat.kind) == s3;
    EmitDoes(s1, save);
    SendDoes(s2, ask.q, None);
    DoesTrans(s1, s2, s3, [save], [], [], [ask]);
    assert [save] + [] == [save] && [] + [ask] == [ask];
    GroupPhotoDoes(s3, chat.id, chat.photo);
    DoesTrans(s1, s3, RecordChat(s, chat), [save], [ask],
              FileJobs(GroupRow(chat.id), chat.photo), FileAsks(chat.photo));
    SameStart(s, s1, RecordChat(s, chat), ChatArrivedJobs(chat), RecordChatAsks(chat));
  }

  /** The chat starts to be polled: its group is listed for the first time. */
  predicate Tracks(s: State, chat: TdChat, fromList: bool) {
    fromList && !chat.kind.NotAGroup? && chat.kind.group !in s.core.groups && chat.id !in s.core.pollSet
  }

  /** The administrators of a supergroup are asked for at once; those of a basic group come with its info. */
  function TrackAsks(chat: TdChat): seq<Ask> {
    if chat.kind.IsSupergroup? then [Ask(GetMembers(chat.kind.group, chat.id), Some(FetchAdmins(chat.id)))] else []
  }

  /** The chat is polled from then on, after all others. */
  function Tracked(s: State, chat: int): State {
    s.(core := TrackedCore(s.core, chat))
  }

  function TrackedCore(c: Core, chat: int): Core {
    c.(pollSet := c.pollSet + {chat}, pollQueue := c.pollQueue + [chat])
  }

  lemma BareTracked(c: Core, chat: int)
    ensures Bare(TrackedCore(c, chat)) == TrackedCore(Bare(c), chat)
  {
  }

  lemma TrackDoes(s: State, chat: TdChat)
    requires !chat.kind.NotAGroup?
    ensures Traffic(s, Track(s, chat), [], TrackAsks(chat)) && Memory(Track(s, chat)) == Memory(Tracked(s, chat.id))
  {
    var s1 := Tracked(s, chat.id);
    if chat.kind.IsSupergroup? {
      SendDoes(s1, GetMembers(chat.kind.group, chat.id), Some(FetchAdmins(chat.id)));
      SameStart(s, s1, Track(s, chat), [], TrackAsks(chat));
    } else {
      NoTraffic(s, s1);
    }
  }

  function ChatArrivedAsks(s: State, chat: TdChat, fromList: bool): seq<Ask> {
    if chat.kind.NotAGroup? then []
    else RecordChatAsks(chat) + if Tracks(s, chat, fromList) then TrackAsks(chat) else []
  }

  function ChatKnown(s: State, chat: TdChat, fromList: bool): State {
    if chat.kind.NotAGroup? then s
    else if Tracks(s, chat, fromList) then Tracked(Bind(s, chat), chat.id)
    else Bind(s, chat)
  }

  lemma TrackedMemory(s: State, s1: State, chat: int)
    requires Memory(s1) == Memory(s)
    ensures Memory(Tracked(s1, chat)) == Memory(Tracked(s, chat))
  {
    BareTracked(s.core, chat);
    BareTracked(s1.core, chat);
  }

  lemma ChatArrivedDoes(s: State, chat: TdChat, fromList: bool)
    ensures Traffic(s, ChatArrived(s, chat, fromList), ChatArrivedJobs(chat), ChatArrivedAsks(s, chat, fromList))
    ensures Memory(ChatArrived(s, chat, fromList)) == Memory(ChatKnown(s, chat, fromList))
  {
    if chat.kind.NotAGroup? {
      NoTraffic(s, s);
    } else {
      var s1 := RecordChat(s, chat);
      RecordChatDoes(s, chat);
      assert s1.core.pollSet == s.core.pollSet by {
        assert Memory(s1).2.pollSet == Memory(Bind(s, chat)).2.pollSet;
      }
      if Tracks(s, chat, fromList) {
        TrackDoes(s1, chat);
        TrackedMemory(Bind(s, chat), s1, chat.id);
        TrafficTrans(s, s1, Track(s1, chat), ChatArrivedJobs(chat), RecordChatAsks(chat), [], TrackAsks(chat));
        assert ChatArrivedJobs(chat) + [] == ChatArrivedJobs(chat);
      } else {
        assert RecordChatAsks(chat) + [] == RecordChatAsks(chat);
      }
    }
  }

  /** A group heard of by its info counts as a basic group that was not seen yet. */
  lemma GroupLearnedDoes(s: State, group: int, st: GroupState)
    requires if group in s.core.groups then st.seen == s.core.groups[group].seen && st.chat == s.core.groups[group].chat
             else !st.seen
    ensures Traffic(s, EmitGroup(WithGroup(s, group, st), group), GroupJobs(s, group), [])
    ensures Memory(EmitGroup(WithGroup(s, group, st), group)) == Memory(WithGroup(s, group, st))
  {
    var s1 := WithGroup(s, group, st);
    EmitGroupDoes(s1, group);
    assert GroupJobs(s1, group) == GroupJobs(s, group);
    SameStart(s, s1, EmitGroup(s1, group), GroupJobs(s, group), []);
  }

  /** The chat of a basic group whose administrators are polled. */
  function PolledChat(s: State, group: int): Option<int> {
    if group in s.core.groups && s.core.groups[group].seen && s.core.groups[group].chat in s.core.pollSet
    then Some(s.core.groups[group].chat)
    else None
  }

  function GroupInfoJobs(s: State, group: int, members: Members): seq<Emission> {
    var chat := PolledChat(s, group);
    GroupJobs(s, group) + if chat.Some? then AdminJobs(s, chat.value, AdminsIn(members)) else []
  }

  function GroupInfoAsks(s: State, group: int, members: Members): seq<Ask> {
    if PolledChat(s, group).Some? then SaveAsks(s, AdminsIn(members)) else []
  }

  lemma {:induction false} SameUsers(s: State, s1: State, admins: seq<Admin>)
    requires s1.users == s.users
    ensures SaveJobs(s1, admins) == SaveJobs(s, admins) && SaveAsks(s1, admins) == SaveAsks(s, admins)
  {
    if admins != [] {
      SameUsers(s, s1, admins[..|admins| - 1]);
    }
  }

  lemma BasicGroupInfoDoes(s: State, group: int, members: Members)
    ensures Traffic(s, BasicGroupInfoArrived(s, group, members),
                    GroupInfoJobs(s, group, members), GroupInfoAsks(s, group, members))
    ensures Memory(BasicGroupInfoArrived(s, group, members)) == Memory(WithGroup(s, group, StateOfGroup(s, group)))
  {
    var st := StateOfGroup(s, group);
    var s1 := WithGroup(s, group, st);
    var s2, admins := EmitGroup(s1, group), AdminsIn(members);
    GroupLearnedDoes(s, group, st);
    assert s2.core.pollSet == s.core.pollSet && s2.users == s.users && s1.core.groups[group] == st;
    if PolledChat(s, group).Some? {
      EmitAdminsDoes(s2, st.chat, members);
      SameUsers(s, s2, admins);
      TrafficTrans(s, s2, EmitAdmins(s2, st.chat, members), GroupJobs(s, group), [],
                   AdminJobs(s, st.chat, admins), SaveAsks(s, admins));
      assert [] + SaveAsks(s, admins) == SaveAsks(s, admins);
    } else {
      assert GroupJobs(s, group) + [] == GroupJobs(s, group);
      if !st.seen {
        NoTraffic(s, s1);
      }
    }
  }

  // ---------------------------------------------------------------- authorization, alarms and member lists

  function AuthorizationAsks(s: State, auth: Authorization): seq<Ask> {
    match auth
    case Asking => [Ask(OtherQuery, Some(Ignore))]
    case Ready =>
      [Ask(OtherQuery, Some(Ignore))]
      + if s.core.pollEnabled && !s.core.pollStarted then [Ask(SetAlarm, Some(Alarm))] else []
    case _ => []
  }

  function Authorized(s: State, auth: Authorization): State {
    match auth
    case Asking => s
    case Ready => if s.core.pollEnabled then WithPollStarted(WithAuthorized(s, true)) else WithAuthorized(s, true)
    case LoggingOut => WithAuthorized(s, false)
    case Closing => s
    case Closed => WithStopped(s)
  }

  lemma ReadyDoes(s: State)
    ensures Traffic(s, AuthorizationChanged(s, Ready), [], AuthorizationAsks(s, Ready))
    ensures Memory(AuthorizationChanged(s, Ready)) == Memory(Authorized(s, Ready))
  {
    var s0, first := WithAuthorized(s, true), Ask(OtherQuery, Some(Ignore));
    var s1 := SendQuery(s0, OtherQuery, Some(Ignore));
    SendDoes(s0, OtherQuery, Some(Ignore));
    SameStart(s, s0, s1, [], [first]);
    if !s.core.pollStarted && s.core.pollEnabled {
      var s2 := WithPollStarted(s1);
      SendDoes(s2, SetAlarm, Some(Alarm));
      SameStart(s1, s2, ArmAlarm(s2), [], [Ask(SetAlarm, Some(Alarm))]);
      TrafficTrans(s, s1, ArmAlarm(s2), [], [first], [], [Ask(SetAlarm, Some(Alarm))]);
    } else {
      assert [first] + [] == [first];
    }
  }

  lemma AuthorizationDoes(s: State, auth: Authorization)
    ensures Traffic(s, AuthorizationChanged(s, auth), [], AuthorizationAsks(s, auth))
    ensures Memory(AuthorizationChanged(s, auth)) == Memory(Authorized(s, auth))
  {
    match auth {
      case Asking => SendDoes(s, OtherQuery, Some(Ignore));
      case Ready => ReadyDoes(s);
      case LoggingOut => NoTraffic(s, WithAuthorized(s, false));
      case Closing => NothingDoes(s);
      case Closed => NoTraffic(s, WithStopped(s));
    }
  }

  /** The chats that an alarm refreshes, if the client is usable. */
  function RangRefreshed(s: State): seq<int> {
    if s.core.authorized && !s.core.stopped && !s.core.closing then Refreshed(s, 0, |s.core.pollQueue|) else []
  }

  lemma RangKnown(s: State)
    ensures Known(s.core, RangRefreshed(s))
  {
    PollDoes(s, 0, |s.core.pollQueue|);
  }

  /** Then the next alarm is set, unless the client is ending. */
  function AlarmRangAsks(s: State): seq<Ask> {
    RangKnown(s);
    RefreshAsks(s.core, RangRefreshed(s))
    + if s.core.stopped || s.core.closing then [] else [Ask(SetAlarm, Some(Alarm))]
  }

  lemma AlarmRangDoes(s: State)
    ensures Traffic(s, AlarmRang(s), [], AlarmRangAsks(s))
  {
    var alarm := [Ask(SetAlarm, Some(Alarm))];
    RangKnown(s);
    if s.core.stopped || s.core.closing {
      NoTraffic(s, s);
      assert RefreshAsks(s.core, []) + [] == [];
    } else if s.core.authorized {
      var s1 := Poll(s, 0, |s.core.pollQueue|);
      PollDoes(s, 0, |s.core.pollQueue|);
      SendDoes(s1, SetAlarm, Some(Alarm));
      TrafficTrans(s, s1, ArmAlarm(s1), [], RefreshAsks(s.core, RangRefreshed(s)), [], alarm);
    } else {
      SendDoes(s, SetAlarm, Some(Alarm));
      assert RefreshAsks(s.core, []) + alarm == alarm;
    }
  }

  function ListJobs(s: State, chat: int, o: Object): seq<Emission> {
    if o.MembersObject? then AdminJobs(s, chat, AdminsIn(o.members)) else []
  }

  function ListAsks(s: State, o: Object): seq<Ask> {
    if o.MembersObject? then SaveAsks(s, AdminsIn(o.members)) else []
  }

  function MissesKnown(s: State, chat: int, o: Object): State {
    if o.MembersObject? then WithMisses(s, s.core.pollMiss - {chat})
    else if IsDenial(o) then s.(core := MissCounted(s.core, chat))
    else s
  }

  lemma AdminsArrivedDoes(s: State, chat: int, o: Object)
    ensures Traffic(s, AdminsArrived(s, chat, o), ListJobs(s, chat, o), ListAsks(s, o))
    ensures Memory(AdminsArrived(s, chat, o)) == Memory(MissesKnown(s, chat, o))
  {
    if o.MembersObject? {
      var s1 := WithMisses(s, s.core.pollMiss - {chat});
      EmitAdminsDoes(s1, chat, o.members);
      SameUsers(s, s1, AdminsIn(o.members));
      SameStart(s, s1, EmitAdmins(s1, chat, o.members), ListJobs(s, chat, o), ListAsks(s, o));
    } else {
      NoTraffic(s, AdminsArrived(s, chat, o));
    }
  }

  // ---------------------------------------------------------------- each event

  /** The jobs that an update makes the loop emit, in order. */
  function UpdateJobs(s: State, u: Update): seq<Emission> {
    match u
    case AuthorizationState(_) => []
    case User(user) => UserArrivedJobs(user)
    case UserFullInfo(user) => [ToSerial(SaveInfo(user))]
    case FileUpdate(f) => FileArrivedJobs(s, f)
    case NewChat(chat) => ChatArrivedJobs(chat)
    case ChatTitle(chat) => if chat in s.core.chatGroup then GroupJobs(s, s.core.chatGroup[chat]) else []
    case ChatPhoto(chat, photo) => if chat in s.core.chatGroup then FileJobs(GroupRow(chat), photo) else []
    case SupergroupUpdate(group, _) => GroupJobs(s, group)
    case SupergroupFullInfo(group) => GroupJobs(s, group)
    case BasicGroupFullInfo(group, members) => GroupInfoJobs(s, group, members)
    case NewMessage(m) => MessageJobs(s, m, 0)
    case MessageEdited(_) => []
    case DeleteMessages(chat, ids) => DeleteJobs(chat, ids)
    case OtherUpdate => []
  }

  /** The queries that an update makes the loop send, with what it stores for their answers. */
  function UpdateAsks(s: State, u: Update): seq<Ask> {
    match u
    case AuthorizationState(auth) => AuthorizationAsks(s, auth)
    case User(user) => UserUpdatedAsks(s, user)
    case NewChat(chat) => ChatArrivedAsks(s, chat, true)
    case ChatPhoto(chat, photo) => if chat in s.core.chatGroup then FileAsks(photo) else []
    case BasicGroupFullInfo(group, members) => GroupInfoAsks(s, group, members)
    case NewMessage(m) => MessageAsks(s, m, 0, s.core.roots)
    case MessageEdited(key) => [Ask(GetEdited(key), Some(FetchEdited))]
    case _ => []
  }

  /** The same for an answer, by what was stored for it. */
  function AnswerJobs(s: State, c: Cont, o: Object): seq<Emission> {
    match c
    case Alarm => []
    case FetchReply(src, target, depth, _) =>
      if o.MessageObject? then FetchedJobs(s, src, target, depth, o.m) else [LinkJob(src, target, Unavailable)]
    case FetchEdited => if o.MessageObject? then MessageJobs(s, o.m, 0) else []
    case FetchAdmins(chat) => ListJobs(s, chat, o)
    case FetchChat => if o.ChatObject? then ChatArrivedJobs(o.chat) else []
    case FetchUser => if o.UserObject? then UserArrivedJobs(o.user) else []
    case FetchInfo(user) => if o.UserInfoObject? then [ToSerial(SaveInfo(user))] else []
    case Ignore => []
  }

  function AnswerAsks(s: State, c: Cont, o: Object): seq<Ask> {
    match c
    case Alarm => AlarmRangAsks(s)
    case FetchReply(_, target, depth, root) =>
      if o.MessageObject? then FetchedAsks(s, target, depth, root, o.m) else []
    case FetchEdited => if o.MessageObject? then MessageAsks(s, o.m, 0, s.core.roots) else []
    case FetchAdmins(_) => ListAsks(s, o)
    case FetchChat => if o.ChatObject? then ChatArrivedAsks(s, o.chat, false) else []
    case FetchUser => if o.UserObject? then FileAsks(o.user.photo) else []
    case FetchInfo(_) => []
    case Ignore => []
  }

  lemma ChatUpdateTraffic(s: State, u: Update)
    requires u.ChatTitle? || u.ChatPhoto?
    ensures Traffic(s, AfterUpdate(s, u), UpdateJobs(s, u), UpdateAsks(s, u))
  {
    if u.chatId !in s.core.chatGroup {
      NothingDoes(s);
    } else if u.ChatTitle? {
      EmitGroupDoes(s, s.core.chatGroup[u.chatId]);
    } else {
      GroupPhotoDoes(s, u.chatId, u.photo);
    }
  }

  lemma SupergroupTraffic(s: State, group: int, isChannel: bool)
    ensures Traffic(s, SupergroupChanged(s, group, isChannel), GroupJobs(s, group), [])
  {
    var s1 := WithSupergroup(s, group, isChannel);
    NoTraffic(s, s1);
    if group in s.core.groups {
      var st := s.core.groups[group].(kind := if isChannel then Channel else Supergroup);
      GroupLearnedDoes(s1, group, st);
      SameStart(s, s1, EmitGroup(WithGroup(s1, group, st), group), GroupJobs(s, group), []);
    }
  }

  lemma GroupUpdateTraffic(s: State, u: Update)
    requires u.SupergroupUpdate? || u.SupergroupFullInfo? || u.BasicGroupFullInfo?
    ensures Traffic(s, AfterUpdate(s, u), UpdateJobs(s, u), UpdateAsks(s, u))
  {
    if u.SupergroupUpdate? {
      SupergroupTraffic(s, u.group, u.isChannel);
    } else if u.SupergroupFullInfo? {
      GroupLearnedDoes(s, u.group, StateOfGroup(s, u.group));
    } else {
      BasicGroupInfoDoes(s, u.group, u.members);
    }
  }

  lemma UpdateTraffic(s: State, u: Update)
    ensures Traffic(s, AfterUpdate(s, u), UpdateJobs(s, u), UpdateAsks(s, u))
  {
    match u {
      case AuthorizationState(auth) => AuthorizationDoes(s, auth);
      case User(user) => UserUpdatedDoes(s, user);
      case UserFullInfo(user) => EmitDoes(s, ToSerial(SaveInfo(user)));
      case FileUpdate(f) => FileArrivedDoes(s, f);
      case NewChat(chat) => ChatArrivedDoes(s, chat, true);
      case ChatTitle(_) => ChatUpdateTraffic(s, u);
      case ChatPhoto(_, _) => ChatUpdateTraffic(s, u);
      case SupergroupUpdate(_, _) => GroupUpdateTraffic(s, u);
      case SupergroupFullInfo(_) => GroupUpdateTraffic(s, u);
      case BasicGroupFullInfo(_, _) => GroupUpdateTraffic(s, u);
      case NewMessage(m) => TopMessageDoes(s, m);
      case MessageEdited(key) => SendDoes(s, GetEdited(key), Some(FetchEdited));
      case DeleteMessages(chat, ids) => EmitDeletesDoes(s, chat, ids);
      case OtherUpdate => NothingDoes(s);
    }
  }

  lemma AnswerTraffic(s: State, c: Cont, o: Object)
    ensures Traffic(s, Resume(s, c, o), AnswerJobs(s, c, o), AnswerAsks(s, c, o))
  {
    NothingDoes(s);
    match c {
      case Alarm => AlarmRangDoes(s);
      case FetchReply(src, target, depth, root) =>
        if o.MessageObject? {
          ReplyFetchedDoes(s, src, target, depth, root, o.m);
        } else {
          EmitDoes(s, LinkJob(src, target, Unavailable));
        }
      case FetchEdited =>
        if o.MessageObject? {
          TopMessageDoes(s, o.m);
        }
      case FetchAdmins(chat) => AdminsArrivedDoes(s, chat, o);
      case FetchChat =>
        if o.ChatObject? {
          ChatArrivedDoes(s, o.chat, false);
        }
      case FetchUser =>
        if o.UserObject? {
          UserArrivedDoes(s, o.user);
        }
      case FetchInfo(user) => EmitDoes(s, ToSerial(SaveInfo(user)));
      case Ignore =>
    }
  }

  /** The state in which the event is handled: an answered query is forgotten first. */
  function Received(s: State, e: Event): State {
    if e.Answered? && e.id in s.handlers then WithHandlers(s, s.handlers - {e.id}) else s
  }

  function JobsOf(s: State, e: Event): seq<Emission> {
    match e
    case Updated(u) => UpdateJobs(s, u)
    case Answered(id, o) => if id in s.handlers then AnswerJobs(s, s.handlers[id], o) else []
    case CloseRequested => []
  }

  function AsksOf(s: State, e: Event): seq<Ask> {
    match e
    case Updated(u) => UpdateAsks(s, u)
    case Answered(id, o) => if id in s.handlers then AnswerAsks(Received(s, e), s.handlers[id], o) else []
    case CloseRequested => [Ask(OtherQuery, None)]
  }

  lemma {:induction false} ReceivedJobs(s: State, e: Event)
    requires e.Answered? && e.id in s.handlers
    ensures AnswerJobs(Received(s, e), s.handlers[e.id], e.o) == AnswerJobs(s, s.handlers[e.id], e.o)
  {
    var s1, c := Received(s, e), s.handlers[e.id];
    if c.FetchAdmins? && e.o.MembersObject? {
      SameUsers(s, s1, AdminsIn(e.o.members));
    } else if c.FetchReply? && e.o.MessageObject? {
      ReceivedFetch(s, s1, c, e.o.m);
    } else if c.FetchEdited? && e.o.MessageObject? {
      SameMessages(s, s1, e.o.m, 0, 0);
    }
  }

  lemma ReceivedFetch(s: State, s1: State, c: Cont, r: TdMessage)
    requires c.FetchReply? && s1.users == s.users && s1.supergroups == s.supergroups && s1.core == s.core
    ensures FetchedJobs(s1, c.src, c.target, c.depth, r) == FetchedJobs(s, c.src, c.target, c.depth, r)
  {
    SameMessages(MarkResolved(s, c.target), MarkResolved(s1, c.target), r, c.depth + 1, 0);
    assert EntityJobs(s1, r) == EntityJobs(s, r);
  }

  /**
   On every event the loop emits exactly these jobs and sends exactly these queries, in this order, and stores
   exactly their continuations; an answered one is gone.
   */
  lemma StepTraffic(s: State, e: Event)
    ensures Traffic(Received(s, e), Step(s, e), JobsOf(s, e), AsksOf(s, e))
  {
    match e {
      case Updated(u) => UpdateTraffic(s, u);
      case Answered(id, o) =>
        if id in s.handlers {
          AnswerTraffic(Received(s, e), s.handlers[id], o);
          ReceivedJobs(s, e);
        } else {
          NothingDoes(s);
        }
      case CloseRequested =>
        SendDoes(WithClosing(s), OtherQuery, None);
        SameStart(s, WithClosing(s), Step(s, e), [], [Ask(OtherQuery, None)]);
    }
  }

  // ---------------------------------------------------------------- administrator lists handed over

  /** The positions of the administrators among the members, in order. */
  ghost predicate Picks(members: Members, admins: seq<Admin>, at: seq<nat>) {
    && |at| == |admins|
    && (forall i :: 0 <= i < |at| ==> at[i] < |members| && members[at[i]] == Some(admins[i]))
    && (forall i, j :: 0 <= i < j < |at| ==> at[i] < at[j])
    && (forall k :: 0 <= k < |members| && members[k].Some? ==> k in at)
  }

  /** Exactly the members that are administrators, each as often as received, and in that order. */
  ghost predicate AllAdmins(members: Members, admins: seq<Admin>) {
    exists at: seq<nat> :: Picks(members, admins, at)
  }

  lemma PicksMore(front: Members, m: Option<Admin>, admins: seq<Admin>, at: seq<nat>)
    requires Picks(front, admins, at)
    ensures m.None? ==> Picks(front + [m], admins, at)
    ensures m.Some? ==> Picks(front + [m], admins + [m.value], at + [|front|])
  {
    var members := front + [m];
    assert forall k :: 0 <= k < |front| ==> members[k] == front[k];
    if m.Some? {
      var at' := at + [|front|];
      assert at'[|at|] == |front|;
      forall k | 0 <= k < |members| && members[k].Some?
        ensures k in at'
      {
        assert k < |front| ==> k in at;
      }
    }
  }

  lemma {:induction false} AdminsInPicks(members: Members) returns (at: seq<nat>)
    ensures Picks(members, AdminsIn(members), at)
  {
    if members == [] {
      at := [];
    } else {
      var n := |members| - 1;
      at := AdminsInPicks(members[..n]);
      PicksMore(members[..n], members[n], AdminsIn(members[..n]), at);
      assert members[..n] + [members[n]] == members;
      if members[n].Some? {
        at := at + [n];
      }
    }
  }

  predicate IsSync(e: Emission) {
    e.ToSerial? && e.job.SyncAdmins?
  }

  /** The syncs among the jobs. */
  function SyncsIn(script: seq<Emission>): seq<Emission> {
    if script == [] then []
    else SyncsIn(script[..|script| - 1]) + if IsSync(script[|script| - 1]) then [script[|script| - 1]] else []
  }

  lemma {:induction false} SyncsConcat(a: seq<Emission>, b: seq<Emission>)
    ensures SyncsIn(a + b) == SyncsIn(a) + SyncsIn(b)
  {
    if b == [] {
      assert a + b == a;
    } else {
      SyncsConcat(a, b[..|b| - 1]);
      assert (a + b)[..|a + b| - 1] == a + b[..|b| - 1];
    }
  }

  lemma {:induction false} NoSyncs(jobs: seq<Emission>)
    requires forall e <- jobs :: !IsSync(e)
    ensures SyncsIn(jobs) == []
  {
    if jobs != [] {
      NoSyncs(jobs[..|jobs| - 1]);
    }
  }

  lemma {:induction false} SaveJobsQuiet(s: State, admins: seq<Admin>)
    ensures forall e <- SaveJobs(s, admins) :: !IsSync(e)
  {
    if admins != [] {
      SaveJobsQuiet(s, admins[..|admins| - 1]);
    }
  }

  /** One list makes one sync, of that list, unless it is empty. */
  function SyncOf(chat: int, admins: seq<Admin>): seq<Emission> {
    if admins == [] then [] else [ToSerial(SyncAdmins(chat, admins))]
  }

  lemma AdminJobsSync(s: State, chat: int, admins: seq<Admin>)
    ensures SyncsIn(AdminJobs(s, chat, admins)) == SyncOf(chat, admins)
  {
    SaveJobsQuiet(s, admins);
    NoSyncs(SaveJobs(s, admins));
    if admins == [] {
      assert AdminJobs(s, chat, admins) == SaveJobs(s, admins);
    } else {
      SyncsConcat(SaveJobs(s, admins), [ToSerial(SyncAdmins(chat, admins))]);
      assert [ToSerial(SyncAdmins(chat, admins))][..0] == [];
    }
  }

  /** The member list that the event brings for a polled chat: an answer to its request, or its group's info. */
  function ListIn(s: State, e: Event): Option<(int, Members)> {
    if AnswersAdmins(s, e) && e.o.MembersObject? then Some((s.handlers[e.id].chat, e.o.members))
    else if e.Updated? && e.u.BasicGroupFullInfo? && PolledChat(s, e.u.group).Some? then
      Some((PolledChat(s, e.u.group).value, e.u.members))
    else None
  }

  lemma {:induction false} MessageJobsQuiet(s: State, m: TdMessage, depth: nat)
    ensures forall e <- MessageJobs(s, m, depth) :: !IsSync(e)
    ensures forall e <- EntityJobs(s, m) :: !IsSync(e)
  {
  }

  lemma OtherUpdatesQuiet(s: State, u: Update)
    requires !u.BasicGroupFullInfo?
    ensures forall e <- UpdateJobs(s, u) :: !IsSync(e)
  {
    if u.NewMessage? {
      MessageJobsQuiet(s, u.m, 0);
    }
  }

  lemma OtherAnswersQuiet(s: State, c: Cont, o: Object)
    requires !c.FetchAdmins?
    ensures forall e <- AnswerJobs(s, c, o) :: !IsSync(e)
  {
    if c.FetchEdited? && o.MessageObject? {
      MessageJobsQuiet(s, o.m, 0);
    } else if c.FetchReply? && o.MessageObject? {
      MessageJobsQuiet(s, o.m, c.depth);
      MessageJobsQuiet(MarkResolved(s, c.target), o.m, c.depth + 1);
    }
  }

  lemma GroupInfoSyncs(s: State, group: int, members: Members)
    ensures SyncsIn(GroupInfoJobs(s, group, members))
         == if PolledChat(s, group).Some? then SyncOf(PolledChat(s, group).value, AdminsIn(members)) else []
  {
    NoSyncs(GroupJobs(s, group));
    if PolledChat(s, group).Some? {
      SyncsConcat(GroupJobs(s, group), AdminJobs(s, PolledChat(s, group).value, AdminsIn(members)));
      AdminJobsSync(s, PolledChat(s, group).value, AdminsIn(members));
    } else {
      assert GroupJobs(s, group) + [] == GroupJobs(s, group);
    }
  }

  /** The syncs that the member list of an event, if it brings one, makes. */
  function SyncsOf(list: Option<(int, Members)>): seq<Emission> {
    if list.Some? then SyncOf(list.value.0, AdminsIn(list.value.1)) else []
  }

  lemma UpdateSyncs(s: State, u: Update)
    ensures SyncsIn(UpdateJobs(s, u)) == SyncsOf(ListIn(s, Updated(u)))
  {
    if u.BasicGroupFullInfo? {
      GroupInfoSyncs(s, u.group, u.members);
    } else {
      QuietUpdateSyncs(s, u);
    }
  }

  lemma QuietUpdateSyncs(s: State, u: Update)
    requires !u.BasicGroupFullInfo?
    ensures SyncsIn(UpdateJobs(s, u)) == []
  {
    OtherUpdatesQuiet(s, u);
    NoSyncs(UpdateJobs(s, u));
  }

  lemma AnswerSyncs(s: State, c: Cont, o: Object)
    ensures SyncsIn(AnswerJobs(s, c, o))
         == if c.FetchAdmins? && o.MembersObject? then SyncOf(c.chat, AdminsIn(o.members)) else []
  {
    if !c.FetchAdmins? {
      OtherAnswersQuiet(s, c, o);
      NoSyncs(AnswerJobs(s, c, o));
    } else if o.MembersObject? {
      AdminJobsSync(s, c.chat, AdminsIn(o.members));
    }
  }

  lemma JobsSyncs(s: State, e: Event)
    ensures SyncsIn(JobsOf(s, e)) == SyncsOf(ListIn(s, e))
  {
    if e.Updated? {
      UpdateSyncs(s, e.u);
    } else if e.Answered? && e.id in s.handlers {
      AnswerSyncs(s, s.handlers[e.id], e.o);
    }
  }

  /**
   A member list that answers the request for a chat, or comes with the info of a polled basic group, is handed
   over in one sync of that chat, all administrators in it; without any there is no sync, nor on any other event.
   */
  lemma StepSyncs(s: State, e: Event) returns (admins: seq<Admin>)
    ensures ListIn(s, e).Some? ==>
      && AllAdmins(ListIn(s, e).value.1, admins)
      && SyncsIn(Step(s, e).script) == SyncsIn(s.script)
           + if admins == [] then [] else [ToSerial(SyncAdmins(ListIn(s, e).value.0, admins))]
    ensures ListIn(s, e).None? ==> SyncsIn(Step(s, e).script) == SyncsIn(s.script)
  {
    StepTraffic(s, e);
    JobsSyncs(s, e);
    SyncsConcat(s.script, JobsOf(s, e));
    admins := [];
    if ListIn(s, e).Some? {
      admins := AdminsIn(ListIn(s, e).value.1);
      var at := AdminsInPicks(ListIn(s, e).value.1);
    }
  }
}
