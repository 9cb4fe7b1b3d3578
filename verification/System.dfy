/**
 The whole program: what the event loop emits, run by the thread pools, applied to the tables.
 */
module System {
  import opened Common
  import opened Models
  import EventLoop
  import EventScript
  import GroupAdminHistory
  import Messages
  import MessageStore
  import opened Runtime
  import opened RuntimeOrder
  import opened ThreadPool

  /** The script of the program is what the event loop emits on some run. */
  ghost predicate FromEvents(script: seq<Emission>, pollEnabled: bool, batch: nat, events: seq<EventLoop.Event>) {
    && EventLoop.PlausibleRun(EventLoop.Start(pollEnabled, batch), events)
    && script == EventLoop.Run(EventLoop.Start(pollEnabled, batch), events).script
  }

  // ---------------------------------------------------------------- links come after their rows

  /**
   Whatever Telegram delivers and however the threads interleave, each link job that serial_ runs ends
   after the jobs that save the rows it links.
   */
  lemma LinksAfterRows(
    pollEnabled: bool, batch: nat, events: seq<EventLoop.Event>,
    cap: nat, fileWorkers: set<Tid>, script: seq<Emission>, moves: seq<Move>, p: Program)
    requires FromEvents(script, pollEnabled, batch, events) && SaneThreads(fileWorkers)
    requires Leads(Start(cap, fileWorkers, script), moves, p)
    ensures forall i :: 0 <= i < |p.serial.finished| ==> p.serial.finished[i] < |p.serial.accepted|
    ensures forall i :: 0 <= i < |Executed(p.serial)| ==> LinkAfterRows(Executed(p.serial)[i], Executed(p.serial)[..i])
  {
    EventScript.ScriptOnAnyRun(pollEnabled, batch, events);
    RowBeforeLinkOnAnyRun(cap, fileWorkers, script, moves, p);
  }

  // ---------------------------------------------------------------- what committed jobs do

  /** Private and group messages are kept in tables of their own. */
  predicate InTable(key: Messages.Key, privates: bool) {
    EventLoop.IsPrivate(key.0) == privates
  }

  /**
   What a job may do to one of the tables: nothing if it concerns another table, and nothing if it failed,
   which the program logs and the transaction rolls back.  The effects are those on one table, private or
   group messages: a reply to a message of the other table names it by its key and finds no row here.
   */
  ghost predicate Performs<S>(job: SerialJob, e: Option<Messages.Event<S>>, privates: bool) {
    e.Some? ==>
      match job
      case Save(MessageRow(chat, id)) =>
        InTable((chat, id), privates) && e.value.Upsert? && e.value.m.key == (chat, id) && !e.value.m.deleted
      case Delete(chat, id) =>
        InTable((chat, id), privates) && e.value.Upsert? && e.value.m.key == (chat, id) && e.value.m.deleted
      case LinkFile(MessageRow(chat, id), _) =>
        InTable((chat, id), privates) && e.value.SetFile? && e.value.key == (chat, id)
      case LinkReply(MessageRow(chat, id), MessageRow(c, i), _) =>
        InTable((chat, id), privates) && e.value == Messages.SetReply((chat, id), (c, i))
      case _ => false
  }

  ghost predicate AllPerform<S>(jobs: seq<SerialJob>, effects: seq<Option<Messages.Event<S>>>, privates: bool) {
    |effects| == |jobs| && forall j :: 0 <= j < |jobs| ==> Performs(jobs[j], effects[j], privates)
  }

  function Apply1<S(==)>(s: Messages.Store<S>, e: Option<Messages.Event<S>>): Messages.Store<S> {
    if e.Some? then Messages.Step(s, e.value) else s
  }

  /** The table after the jobs. */
  function Table<S(==)>(s: Messages.Store<S>, effects: seq<Option<Messages.Event<S>>>): Messages.Store<S> {
    if effects == [] then s else Apply1(Table(s, effects[..|effects| - 1]), effects[|effects| - 1])
  }

  function SaveOf(key: Messages.Key): SerialJob {
    Save(MessageRow(key.0, key.1))
  }

  /** Some save of the message was committed. */
  ghost predicate Committed<S>(jobs: seq<SerialJob>, effects: seq<Option<Messages.Event<S>>>, key: Messages.Key) {
    exists i :: 0 <= i < |jobs| && i < |effects| && jobs[i] == SaveOf(key) && effects[i].Some?
  }

  lemma CommittedSnoc<S>(jobs: seq<SerialJob>, effects: seq<Option<Messages.Event<S>>>, key: Messages.Key)
    requires |effects| == |jobs| > 0
    ensures var n := |jobs| - 1;
      Committed(jobs, effects, key)
      <==> Committed(jobs[..n], effects[..n], key) || (jobs[n] == SaveOf(key) && effects[n].Some?)
  {
    var n := |jobs| - 1;
    if Committed(jobs[..n], effects[..n], key) {
      var i :| 0 <= i < n && jobs[..n][i] == SaveOf(key) && effects[..n][i].Some?;
      assert jobs[i] == SaveOf(key) && effects[i].Some?;
    }
    if i :| 0 <= i < n && jobs[i] == SaveOf(key) && effects[i].Some? {
      assert jobs[..n][i] == SaveOf(key) && effects[..n][i].Some?;
    }
  }

  /** Only the save of a message brings it into the table, and nothing takes it out. */
  lemma RowAfterJob<S>(
    s: Messages.Store<S>, job: SerialJob, e: Option<Messages.Event<S>>, privates: bool, key: Messages.Key)
    requires Performs(job, e, privates)
    ensures key in Apply1(s, e).rows <==> key in s.rows || (job == SaveOf(key) && e.Some?)
  {
  }

  /** A message has a row exactly if it had one before or some save of it was committed. */
  lemma {:induction false} RowIffCommitted<S>(
    s: Messages.Store<S>, jobs: seq<SerialJob>, effects: seq<Option<Messages.Event<S>>>, privates: bool,
    key: Messages.Key)
    requires AllPerform(jobs, effects, privates)
    ensures key in Table(s, effects).rows <==> key in s.rows || Committed(jobs, effects, key)
  {
    if jobs != [] {
      var n := |jobs| - 1;
      assert AllPerform(jobs[..n], effects[..n], privates);
      RowIffCommitted(s, jobs[..n], effects[..n], privates, key);
      RowAfterJob(Table(s, effects[..n]), jobs[n], effects[n], privates, key);
      CommittedSnoc(jobs, effects, key);
    }
  }

  // ---------------------------------------------------------------- links find their rows

  /** The message has a row when job j runs: it had one at first, or an earlier save of it was committed. */
  ghost predicate HasRow<S>(
    s: Messages.Store<S>, jobs: seq<SerialJob>, effects: seq<Option<Messages.Event<S>>>, j: nat, key: Messages.Key)
    requires j < |jobs| && |effects| == |jobs|
  {
    key in s.rows || Committed(jobs[..j], effects[..j], key)
  }

  /** The table t becomes t' by linking a file to a message that has a row, and stays as it is without one. */
  ghost predicate FileLinked<S>(t: Messages.Store<S>, t': Messages.Store<S>, key: Messages.Key, found: bool) {
    if found then exists file :: key in t.rows && t' == t.(rows := t.rows[key := t.rows[key].(file := Some(file))])
    else t' == t
  }

  /** The same for a reply: the replied message is named, with the id of its row if there is one. */
  ghost predicate ReplyLinked<S>(
    t: Messages.Store<S>, t': Messages.Store<S>, src: Messages.Key, target: Messages.Key, found: bool, resolved: bool) {
    && (!found ==> t' == t)
    && (found ==> src in t.rows && src in t'.rows && t'.rows[src].replyTo == Some(target))
    && (found && resolved ==> target in t.rows && t'.rows[src].replyId == Some(t.rows[target].id))
    && (found && !resolved ==> t'.rows[src].replyId == None)
  }

  lemma FileLinkFinds<S>(
    s: Messages.Store<S>, jobs: seq<SerialJob>, effects: seq<Option<Messages.Event<S>>>, privates: bool, j: nat,
    key: Messages.Key)
    requires AllPerform(jobs, effects, privates) && j < |jobs| && effects[j].Some?
    requires jobs[j].LinkFile? && jobs[j].row == MessageRow(key.0, key.1)
    ensures FileLinked(Table(s, effects[..j]), Table(s, effects[..j + 1]), key, HasRow(s, jobs, effects, j, key))
  {
    assert effects[..j + 1][..j] == effects[..j];
    assert AllPerform(jobs[..j], effects[..j], privates);
    RowIffCommitted(s, jobs[..j], effects[..j], privates, key);
    assert Performs(jobs[j], effects[j], privates);
    var t := Table(s, effects[..j]);
    if key in t.rows {
      assert Table(s, effects[..j + 1])
          == t.(rows := t.rows[key := t.rows[key].(file := Some(effects[j].value.file))]);
    }
  }

  lemma ReplyLinkFinds<S>(
    s: Messages.Store<S>, jobs: seq<SerialJob>, effects: seq<Option<Messages.Event<S>>>, privates: bool, j: nat,
    src: Messages.Key, target: Messages.Key)
    requires AllPerform(jobs, effects, privates) && j < |jobs| && effects[j].Some? && jobs[j].LinkReply?
    requires jobs[j].src == MessageRow(src.0, src.1) && jobs[j].target == MessageRow(target.0, target.1)
    ensures ReplyLinked(Table(s, effects[..j]), Table(s, effects[..j + 1]), src, target,
                        HasRow(s, jobs, effects, j, src), HasRow(s, jobs, effects, j, target))
  {
    assert effects[..j + 1][..j] == effects[..j];
    assert AllPerform(jobs[..j], effects[..j], privates);
    RowIffCommitted(s, jobs[..j], effects[..j], privates, src);
    RowIffCommitted(s, jobs[..j], effects[..j], privates, target);
    assert Performs(jobs[j], effects[j], privates);
    assert Table(s, effects[..j + 1]) == Messages.ReplySet(Table(s, effects[..j]), src, target);
  }

  /** Job j, if it is a link that was committed, found exactly the rows whose saves were committed before. */
  ghost predicate LinkFinds<S>(
    s: Messages.Store<S>, jobs: seq<SerialJob>, effects: seq<Option<Messages.Event<S>>>, j: nat)
    requires j < |jobs| && |effects| == |jobs|
  {
    var t, t' := Table(s, effects[..j]), Table(s, effects[..j + 1]);
    match jobs[j]
    case LinkFile(MessageRow(chat, id), _) =>
      FileLinked(t, t', (chat, id), HasRow(s, jobs, effects, j, (chat, id)))
    case LinkReply(MessageRow(chat, id), MessageRow(c, i), _) =>
      ReplyLinked(t, t', (chat, id), (c, i), HasRow(s, jobs, effects, j, (chat, id)),
        HasRow(s, jobs, effects, j, (c, i)))
    case _ => true
  }

  /**
   A committed link finds each row it names exactly if the row was there, or some earlier save of it was
   committed.
   */
  lemma LinksFindRows<S>(
    s: Messages.Store<S>, jobs: seq<SerialJob>, effects: seq<Option<Messages.Event<S>>>, privates: bool, j: nat)
    requires AllPerform(jobs, effects, privates) && j < |jobs| && effects[j].Some?
    ensures LinkFinds(s, jobs, effects, j)
  {
    match jobs[j] {
      case LinkFile(MessageRow(chat, id), _) =>
        FileLinkFinds(s, jobs, effects, privates, j, (chat, id));
      case LinkReply(MessageRow(chat, id), MessageRow(c, i), _) =>
        ReplyLinkFinds(s, jobs, effects, privates, j, (chat, id), (c, i));
      case _ =>
    }
  }

  /**
   The whole program.  Whatever Telegram delivers, however the threads interleave and whichever jobs fail:
   each link job that serial_ runs comes after the jobs that save the rows it needs, and a link that does
   not fail itself finds each row exactly if a save of it did not fail either.
   */
  lemma ExecutedLinksFindRows<S>(
    pollEnabled: bool, batch: nat, events: seq<EventLoop.Event>,
    cap: nat, fileWorkers: set<Tid>, script: seq<Emission>, moves: seq<Move>, p: Program,
    s: Messages.Store<S>, effects: seq<Option<Messages.Event<S>>>, privates: bool, j: nat)
    requires FromEvents(script, pollEnabled, batch, events) && SaneThreads(fileWorkers)
    requires Leads(Start(cap, fileWorkers, script), moves, p)
    requires forall k :: 0 <= k < |p.serial.finished| ==> p.serial.finished[k] < |p.serial.accepted|
    requires AllPerform(Executed(p.serial), effects, privates) && j < |effects|
    ensures LinkAfterRows(Executed(p.serial)[j], Executed(p.serial)[..j])
    ensures effects[j].Some? ==> LinkFinds(s, Executed(p.serial), effects, j)
  {
    LinksAfterRows(pollEnabled, batch, events, cap, fileWorkers, script, moves, p);
    if effects[j].Some? {
      LinksFindRows(s, Executed(p.serial), effects, privates, j);
    }
  }

  /** Where no save of a message fails, every save that was tried was committed: then no link misses its row. */
  lemma TriedSaveCommitted<S>(jobs: seq<SerialJob>, effects: seq<Option<Messages.Event<S>>>, j: nat, key: Messages.Key)
    requires |effects| == |jobs| && j < |jobs| && SaveOf(key) in jobs[..j]
    requires forall i :: 0 <= i < j && jobs[i] == SaveOf(key) ==> effects[i].Some?
    ensures Committed(jobs[..j], effects[..j], key)
  {
    var i :| 0 <= i < j && jobs[..j][i] == SaveOf(key);
    assert jobs[i] == SaveOf(key) && effects[..j][i].Some?;
  }

  // ---------------------------------------------------------------- a save that the foreign key rejects

  /** The foreign key of a database that started empty: without a save of its chat before, a message is rejected. */
  ghost predicate RespectsChats<S>(jobs: seq<SerialJob>, effects: seq<Option<Messages.Event<S>>>)
    requires |effects| == |jobs|
  {
    forall i :: 0 <= i < |jobs| && effects[i].Some? ==> ChatSavedBefore(jobs[i], jobs[..i])
  }

  predicate ChatSavedBefore(job: SerialJob, before: seq<SerialJob>) {
    job.Save? && job.row.MessageRow? ==> Save(EventScript.ChatRow(job.row.chat)) in before
  }

  /** Some save of the message comes after a save of its chat. */
  ghost predicate ChatComesFirst(jobs: seq<SerialJob>, key: Messages.Key) {
    exists i :: 0 <= i < |jobs| && jobs[i] == SaveOf(key) && ChatSavedBefore(jobs[i], jobs[..i])
  }

  /**
   For any jobs: whatever else fails, a message has a row only if some save of it comes after a save of its
   chat.
   */
  lemma RowOnlyAfterChat<S>(
    jobs: seq<SerialJob>, effects: seq<Option<Messages.Event<S>>>, privates: bool, key: Messages.Key)
    requires AllPerform(jobs, effects, privates) && RespectsChats(jobs, effects)
    ensures key in Table(Messages.Empty(), effects).rows ==> ChatComesFirst(jobs, key)
  {
    RowIffCommitted(Messages.Empty(), jobs, effects, privates, key);
    if i :| 0 <= i < |jobs| && jobs[i] == SaveOf(key) && effects[i].Some? {
      assert ChatSavedBefore(jobs[i], jobs[..i]);
    }
  }

  /** Conversely, if some save does, the key to the chat does not keep the message from having a row. */
  lemma RowPossibleAfterChat<S>(jobs: seq<SerialJob>, m: Messages.Message<S>)
    returns (effects: seq<Option<Messages.Event<S>>>)
    requires ChatComesFirst(jobs, m.key) && !m.deleted
    ensures AllPerform(jobs, effects, EventLoop.IsPrivate(m.key.0)) && RespectsChats(jobs, effects)
    ensures m.key in Table(Messages.Empty(), effects).rows
  {
    var privates := EventLoop.IsPrivate(m.key.0);
    var i :| 0 <= i < |jobs| && jobs[i] == SaveOf(m.key) && ChatSavedBefore(jobs[i], jobs[..i]);
    effects := seq(|jobs|, j requires 0 <= j < |jobs| => if j == i then Some(Messages.Upsert(m)) else None);
    assert Committed(jobs, effects, m.key);
    RowIffCommitted(Messages.Empty(), jobs, effects, privates, m.key);
  }

  lemma SavedInJobs(script: seq<Emission>, row: Entity)
    ensures Save(row) in SerialOf(script) <==> EventScript.Saved(script, row)
  {
    if Save(row) in SerialOf(script) {
      SerialOfIsScript(script, Save(row));
    }
    if EventScript.Saved(script, row) {
      SerialOfMember(script, Save(row));
    }
  }

  /** A job of the event loop is posted to serial_ after the earlier ones. */
  lemma {:induction false} SerialOfAt(script: seq<Emission>, n: nat)
    requires n < |script| && script[n].ToSerial?
    ensures var i, jobs := |SerialOf(script[..n])|, SerialOf(script);
      i < |jobs| && jobs[i] == script[n].job && jobs[..i] == SerialOf(script[..n])
  {
    var front := script[..|script| - 1];
    if n < |front| {
      SerialOfAt(front, n);
      assert front[..n] == script[..n];
    } else {
      assert script[..n] == front;
    }
  }

  /** Job i saves the message, and the jobs before it save its chat exactly if s knows the chat. */
  ghost predicate AllowedIfCached(s: EventLoop.State, m: EventLoop.TdMessage, jobs: seq<SerialJob>, i: nat) {
    && i < |jobs| && jobs[i] == SaveOf(m.Key())
    && (ChatSavedBefore(jobs[i], jobs[..i]) <==> EventScript.Cached(s, EventScript.ChatRow(m.chat)))
  }

  lemma AllowedAt(s: EventLoop.State, m: EventLoop.TdMessage, script: seq<Emission>, n: nat)
    requires EventScript.SavesAfterCached(s, m, script, n)
    ensures AllowedIfCached(s, m, SerialOf(script), |SerialOf(script[..n])|)
  {
    SerialOfAt(script, n);
    SavedInJobs(script[..n], EventScript.ChatRow(m.chat));
    assert EventScript.IsParent(m, EventScript.ChatRow(m.chat));
  }

  /**
   The save of a fetched reply target meets the key to its chat exactly if the loop knew that chat when the
   target arrived.
   */
  lemma FetchedSaveAllowedIff(
    s: EventLoop.State, src: EventLoop.Key, target: EventLoop.Key, depth: nat, root: nat, r: EventLoop.TdMessage)
    returns (i: nat)
    requires EventScript.ScriptInv(s)
    ensures AllowedIfCached(s, r, SerialOf(EventLoop.ReplyFetched(s, src, target, depth, root, r).script), i)
  {
    var script := EventLoop.ReplyFetched(s, src, target, depth, root, r).script;
    var n := EventScript.FetchedParentsSavedIff(s, src, target, depth, root, r);
    AllowedAt(s, r, script, n);
    i := |SerialOf(script[..n])|;
  }

  /** The same for a message that is new or edited, so also for a rejected one that is edited later. */
  lemma SaveAllowedIff(s: EventLoop.State, m: EventLoop.TdMessage) returns (i: nat)
    requires EventScript.ScriptInv(s)
    ensures AllowedIfCached(s, m, SerialOf(EventLoop.HandleTopMessage(s, m).script), i)
  {
    var s1, script := EventLoop.WithRoot(s), EventLoop.HandleTopMessage(s, m).script;
    EventScript.WithCoreKeeps(s, s1.core);
    EventScript.KeepsInv(s, s1);
    var n := EventScript.ParentsSavedIff(s1, m, 0, s.core.roots);
    AllowedAt(s1, m, script, n);
    i := |SerialOf(script[..n])|;
  }

  /** So, when the answer has been handled, the target can have a row exactly if the loop knew its chat. */
  lemma FetchedRowPossibleIff(
    s: EventLoop.State, src: EventLoop.Key, target: EventLoop.Key, depth: nat, root: nat, r: EventLoop.TdMessage)
    requires EventScript.ScriptInv(s) && EventScript.SavedKey(s.script, src) && r.Key() == target
    ensures ChatComesFirst(SerialOf(EventLoop.ReplyFetched(s, src, target, depth, root, r).script), target)
      <==> EventScript.Cached(s, EventScript.ChatRow(target.0))
  {
    var s' := EventLoop.ReplyFetched(s, src, target, depth, root, r);
    var jobs := SerialOf(s'.script);
    var k := FetchedSaveAllowedIff(s, src, target, depth, root, r);
    if !EventScript.Cached(s, EventScript.ChatRow(target.0)) {
      EventScript.FetchedFromUnknownChat(s, src, target, depth, root, r);
      SavedInJobs(s'.script, EventScript.ChatRow(target.0));
      assert forall i :: 0 <= i <= |jobs| ==> Save(EventScript.ChatRow(target.0)) !in jobs[..i];
    }
  }

  /**
   The replied message of a chat that the loop does not know: it is remembered as resolved and its link is
   emitted as fetched, yet after the jobs emitted by then it has no row.  It gets one only from a save that
   comes after a save of its chat (RowOnlyAfterChat), such as that of a later edit, once the loop knows the
   chat (SaveAllowedIff).
   */
  lemma FetchedReplyRejected<S>(
    s: EventLoop.State, src: EventLoop.Key, target: EventLoop.Key, depth: nat, root: nat, r: EventLoop.TdMessage,
    effects: seq<Option<Messages.Event<S>>>, privates: bool)
    requires EventScript.ScriptInv(s) && EventScript.SavedKey(s.script, src) && r.Key() == target
    requires !EventScript.Cached(s, EventScript.ChatRow(target.0))
    requires AllPerform(SerialOf(EventLoop.ReplyFetched(s, src, target, depth, root, r).script), effects, privates)
    requires RespectsChats(SerialOf(EventLoop.ReplyFetched(s, src, target, depth, root, r).script), effects)
    ensures var s' := EventLoop.ReplyFetched(s, src, target, depth, root, r); var jobs := SerialOf(s'.script);
      && target in s'.core.resolved && SaveOf(target) in jobs
      && LinkReply(MessageRow(src.0, src.1), MessageRow(target.0, target.1), Fetched) in jobs
    ensures target !in Table(Messages.Empty(), effects).rows
  {
    var s' := EventLoop.ReplyFetched(s, src, target, depth, root, r);
    EventScript.FetchedFromUnknownChat(s, src, target, depth, root, r);
    SerialOfMember(s'.script, SaveOf(target));
    SerialOfMember(s'.script, LinkReply(MessageRow(src.0, src.1), MessageRow(target.0, target.1), Fetched));
    FetchedRowPossibleIff(s, src, target, depth, root, r);
    RowOnlyAfterChat(SerialOf(s'.script), effects, privates, target);
  }

  // ---------------------------------------------------------------- administrators survive

  lemma {:induction false} SerialOfIsScript(script: seq<Emission>, job: SerialJob)
    requires job in SerialOf(script)
    ensures ToSerial(job) in script
  {
    var front := script[..|script| - 1];
    if job in SerialOf(front) {
      SerialOfIsScript(front, job);
    }
  }

  lemma {:induction false} NonLinkKept(jobs: seq<SerialJob>, job: SerialJob)
    requires job in jobs && !job.LinkFile?
    ensures job in NonLinks(jobs)
  {
    if jobs[|jobs| - 1] != job {
      NonLinkKept(jobs[..|jobs| - 1], job);
    }
  }

  /** A job of the event loop that serial_ accepted is in the script. */
  lemma AcceptedIsScript(p: Program, job: SerialJob)
    requires Wired(p) && Delivered(p) && job in p.serial.accepted && !job.LinkFile?
    ensures ToSerial(job) in p.script
  {
    NonLinkKept(p.serial.accepted, job);
    SerialOfIsScript(p.script[..Done(p)], job);
  }

  lemma AcceptedNonEmpty(p: Program, group: int, admins: seq<Admin>)
    requires Wired(p) && Delivered(p) && EventScript.NoEmptySync(p.script)
    requires SyncAdmins(group, admins) in p.serial.accepted
    ensures admins != []
  {
    AcceptedIsScript(p, SyncAdmins(group, admins));
  }

  /**
   Fetch errors never erase administrators.  Apply to the tables any of the admin syncs that serial_
   has run, in any order: a group that has administrators at some point has some ever after.
   */
  lemma AdminsSurvive(
    pollEnabled: bool, batch: nat, events: seq<EventLoop.Event>,
    cap: nat, fileWorkers: set<Tid>, script: seq<Emission>, moves: seq<Move>, p: Program,
    calls: seq<GroupAdminHistory.Call>, states: seq<GroupAdminHistory.State>, group: int, i: nat, n: nat)
    requires FromEvents(script, pollEnabled, batch, events) && SaneThreads(fileWorkers)
    requires Leads(Start(cap, fileWorkers, script), moves, p)
    requires forall k :: 0 <= k < |p.serial.finished| ==> p.serial.finished[k] < |p.serial.accepted|
    requires GroupAdminHistory.IsRun(calls, states) && i <= n <= |calls|
    requires forall c <- calls :: SyncAdmins(c.group, c.list) in Executed(p.serial)
    requires GroupAdminHistory.HasAdmins(states[i].admins, group)
    ensures GroupAdminHistory.HasAdmins(states[n].admins, group)
  {
    EventScript.ScriptOnAnyRun(pollEnabled, batch, events);
    assert Wired(p) && Delivered(p) && p.script == script by {
      StartOrdered(cap, fileWorkers, script);
      ReachableOrdered(Start(cap, fileWorkers, script), moves, p);
      CapsKept(Start(cap, fileWorkers, script), moves, p);
    }
    forall c | c in calls
      ensures c.list != []
    {
      AcceptedNonEmpty(p, c.group, c.list);
    }
    GroupAdminHistory.RunKeepsAdmins(calls, states, group, i, n);
  }
}
