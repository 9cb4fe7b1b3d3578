/**
 What is stored for an answer fits the query that was sent: the answer to query n was asked for by the n-th
 query.
 */
module EventAnswers {
  import opened Common
  import opened Models
  import opened EventLoop
  import opened EventLoopView
  import opened EventLoopEffects
  import opened EventLoopProtocols
  import opened EventTraffic
  import opened EventMemory

  /** The continuation waits for the answer to this very query. */
  predicate Fits(chatGroup: map<int, int>, q: Query, cont: Cont) {
    match cont
    case Alarm => q == SetAlarm
    case FetchReply(_, target, depth, root) => q == GetReplied(target, depth, root)
    case FetchEdited => q.GetEdited?
    case FetchAdmins(chat) => chat in chatGroup && q == GetMembers(chatGroup[chat], chat)
    case FetchChat => q.GetChat?
    case FetchUser => q.GetUser?
    case FetchInfo(user) => q == GetUserInfo(user)
    case Ignore => q == OtherQuery
  }

  predicate AskFits(chatGroup: map<int, int>, ask: Ask) {
    ask.cont.Some? ==> Fits(chatGroup, ask.q, ask.cont.value)
  }

  ghost predicate AllFit(chatGroup: map<int, int>, asks: seq<Ask>) {
    forall i :: 0 <= i < |asks| ==> AskFits(chatGroup, asks[i])
  }

  ghost predicate HandlersFit(chatGroup: map<int, int>, handlers: map<nat, Cont>, sent: seq<Query>) {
    forall id <- handlers :: 1 <= id <= |sent| && Fits(chatGroup, sent[id - 1], handlers[id])
  }

  /** Query ids count the queries, and every continuation fits its query. */
  ghost predicate Asked(s: State) {
    s.queryId == |s.sent| && HandlersFit(s.core.chatGroup, s.handlers, s.sent)
  }

  lemma AskedIsFresh(s: State)
    requires Asked(s)
    ensures Fresh(s)
  {
  }

  lemma {:induction false} StoredFits(
    chatGroup: map<int, int>, handlers: map<nat, Cont>, sent: seq<Query>, asks: seq<Ask>)
    requires HandlersFit(chatGroup, handlers, sent) && AllFit(chatGroup, asks)
    ensures HandlersFit(chatGroup, Stored(handlers, |sent|, asks), sent + Queries(asks))
  {
    if asks != [] {
      var front, ask := asks[..|asks| - 1], asks[|asks| - 1];
      StoredFits(chatGroup, handlers, sent, front);
      assert sent + Queries(asks) == sent + Queries(front) + [ask.q];
    }
  }

  // ---------------------------------------------------------------- the queries of each event fit

  lemma ConcatFits(chatGroup: map<int, int>, a: seq<Ask>, b: seq<Ask>)
    requires AllFit(chatGroup, a) && AllFit(chatGroup, b)
    ensures AllFit(chatGroup, a + b)
  {
  }

  lemma EntityAsksFit(chatGroup: map<int, int>, s: State, m: TdMessage)
    ensures AllFit(chatGroup, OriginAsks(s, m)) && AllFit(chatGroup, EntityAsks(s, m))
  {
  }

  lemma MessageAsksFit(chatGroup: map<int, int>, s: State, m: TdMessage, depth: nat, root: nat)
    ensures AllFit(chatGroup, MessageAsks(s, m, depth, root))
  {
    EntityAsksFit(chatGroup, s, m);
    ConcatFits(chatGroup, OriginAsks(s, m), FileAsks(m.file));
    ConcatFits(chatGroup, OriginAsks(s, m) + FileAsks(m.file), ReplyAsks(s, m, depth, root));
  }

  lemma FetchedAsksFit(chatGroup: map<int, int>, s: State, target: Key, depth: nat, root: nat, r: TdMessage)
    ensures AllFit(chatGroup, FetchedAsks(s, target, depth, root, r))
  {
    EntityAsksFit(chatGroup, s, r);
    MessageAsksFit(chatGroup, MarkResolved(s, target), r, depth + 1, root);
    ConcatFits(chatGroup, EntityAsks(s, r), MessageAsks(MarkResolved(s, target), r, depth + 1, root));
  }

  lemma {:induction false} SaveAsksFit(chatGroup: map<int, int>, s: State, admins: seq<Admin>)
    ensures AllFit(chatGroup, SaveAsks(s, admins))
  {
    if admins != [] {
      SaveAsksFit(chatGroup, s, admins[..|admins| - 1]);
      ConcatFits(chatGroup, SaveAsks(s, admins[..|admins| - 1]), UserAsks(s, admins[|admins| - 1].userId));
    }
  }

  lemma {:induction false} RefreshAsksFit(c: Core, chats: seq<int>)
    requires EventLoopProtocols.Known(c, chats)
    ensures AllFit(c.chatGroup, RefreshAsks(c, chats))
  {
    if chats != [] {
      RefreshAsksFit(c, chats[1..]);
      ConcatFits(c.chatGroup, [RefreshAsk(c, chats[0])], RefreshAsks(c, chats[1..]));
    }
  }

  lemma AlarmAsksFit(s: State)
    ensures AllFit(s.core.chatGroup, AlarmRangAsks(s))
  {
    RangKnown(s);
    RefreshAsksFit(s.core, RangRefreshed(s));
  }

  lemma ChatAsksFit(s: State, chat: TdChat, fromList: bool)
    ensures AllFit(ChatsAfter(s.core, Some(chat)), ChatArrivedAsks(s, chat, fromList))
  {
  }

  lemma UpdateAsksFit(s: State, u: Update)
    ensures AllFit(ChatsAfter(s.core, GroupChatIn(s, Updated(u))), UpdateAsks(s, u))
  {
    match u {
      case NewChat(chat) => ChatAsksFit(s, chat, true);
      case BasicGroupFullInfo(group, members) => SaveAsksFit(s.core.chatGroup, s, AdminsIn(members));
      case NewMessage(m) => MessageAsksFit(s.core.chatGroup, s, m, 0, s.core.roots);
      case _ =>
    }
  }

  lemma AnswerAsksFit(s: State, c: Cont, o: Object)
    ensures var chat := if c.FetchChat? && o.ChatObject? then Some(o.chat) else None;
      AllFit(ChatsAfter(s.core, chat), AnswerAsks(s, c, o))
  {
    match c {
      case Alarm => AlarmAsksFit(s);
      case FetchReply(_, target, depth, root) =>
        if o.MessageObject? {
          FetchedAsksFit(s.core.chatGroup, s, target, depth, root, o.m);
        }
      case FetchEdited =>
        if o.MessageObject? {
          MessageAsksFit(s.core.chatGroup, s, o.m, 0, s.core.roots);
        }
      case FetchAdmins(_) =>
        if o.MembersObject? {
          SaveAsksFit(s.core.chatGroup, s, AdminsIn(o.members));
        }
      case FetchChat =>
        if o.ChatObject? {
          ChatAsksFit(s, o.chat, false);
        }
      case _ =>
    }
  }

  lemma AsksFit(s: State, e: Event)
    ensures AllFit(ChatsAfter(s.core, GroupChatIn(s, e)), AsksOf(s, e))
  {
    if e.Updated? {
      UpdateAsksFit(s, e.u);
    } else if e.Answered? && e.id in s.handlers {
      AnswerAsksFit(Received(s, e), s.handlers[e.id], e.o);
    }
  }

  // ---------------------------------------------------------------- every run

  /** A chat stays in its group. */
  lemma HandlersStayFit(s: State, e: Event)
    requires Asked(s) && Plausible(s, e)
    ensures HandlersFit(ChatsAfter(s.core, GroupChatIn(s, e)), Received(s, e).handlers, s.sent)
  {
    var after := ChatsAfter(s.core, GroupChatIn(s, e));
    assert forall chat <- s.core.chatGroup :: chat in after && after[chat] == s.core.chatGroup[chat];
    assert forall id <- Received(s, e).handlers :: id in s.handlers && Received(s, e).handlers[id] == s.handlers[id];
  }

  lemma StepKeepsAsked(s: State, e: Event)
    requires Asked(s) && Plausible(s, e)
    ensures Asked(Step(s, e))
  {
    AskedIsFresh(s);
    StepTraffic(s, e);
    StepGroups(s, e, 0);
    AsksFit(s, e);
    HandlersStayFit(s, e);
    StoredFits(Step(s, e).core.chatGroup, Received(s, e).handlers, s.sent, AsksOf(s, e));
  }

  lemma StartAsked(pollEnabled: bool, batch: nat)
    ensures Asked(Start(pollEnabled, batch))
  {
  }

  lemma {:induction false} AskedOnRun(s: State, events: seq<Event>)
    requires Asked(s) && PlausibleRun(s, events)
    ensures Asked(Run(s, events))
  {
    if events != [] {
      FrontPlausible(s, events);
      AskedOnRun(s, events[..|events| - 1]);
      StepKeepsAsked(Run(s, events[..|events| - 1]), events[|events| - 1]);
    }
  }

  /**
   On every run query ids count the queries sent, and what waits for an answer was asked for: the replied
   message of a reply for its link, an alarm for the next tick, the members of a chat's own group for its
   administrators.
   */
  lemma {:induction false} AskedOnAnyRun(pollEnabled: bool, batch: nat, events: seq<Event>, id: nat)
    requires PlausibleRun(Start(pollEnabled, batch), events)
    ensures var s := Run(Start(pollEnabled, batch), events);
      && s.queryId == |s.sent|
      && (id in s.handlers ==> 1 <= id <= |s.sent| && Fits(s.core.chatGroup, s.sent[id - 1], s.handlers[id]))
  {
    StartAsked(pollEnabled, batch);
    AskedOnRun(Start(pollEnabled, batch), events);
  }
}
