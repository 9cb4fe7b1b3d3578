/**
 What the administrator history is worth: it replays to the stored administrators of every group,
 each of its entries is accurate, and a sync to a non-empty list never empties a group.
 */
module GroupAdminHistory {
  import opened Common
  import opened Models
  import DiffLog
  import opened GroupAdmins

  function ToChange(e: Event): DiffLog.Change<Key, AdminState> {
    if e.action == Removed then DiffLog.Del((e.group, e.user)) else DiffLog.Put((e.group, e.user), e.state)
  }

  function ToChanges(hist: seq<Event>): seq<DiffLog.Change<Key, AdminState>> {
    seq(|hist|, i requires 0 <= i < |hist| => ToChange(hist[i]))
  }

  /** The administrators of all groups according to the history alone. */
  function ReplayHistory(hist: seq<Event>): map<Key, AdminState> {
    DiffLog.Replay(map[], ToChanges(hist))
  }

  datatype State = State(admins: Table, hist: seq<Event>)

  datatype Call = Call(group: int, list: seq<Admin>, order: seq<Key>)

  ghost predicate Possible(s: State, c: Call) {
    DiffLog.Lists(c.order, Gone(s.admins, c.group, c.list))
  }

  /** What AdminTable.Sync does to the tables. */
  function AfterCall(s: State, c: Call): State
    requires Possible(s, c)
  {
    var known := StoredIn(s.admins, c.group);
    State(Synced(s.admins, c.group, c.list),
          s.hist + ListEvents(known, c.group, c.list) + RemovalEvents(known, c.order))
  }

  ghost predicate Consistent(s: State) {
    ReplayHistory(s.hist) == Stored(s.admins)
  }

  ghost predicate Loud(s: State, c: Call) {
    forall k <- DiffLog.Keys(ListingOf(c.group, c.list)) ::
      !DiffLog.SilentReturn(StoredIn(s.admins, c.group), ListingOf(c.group, c.list), k)
  }

  predicate DistinctUsers(list: seq<Admin>) {
    forall i, j :: 0 <= i < j < |list| ==> list[i].userId != list[j].userId
  }

  // ---------------------------------------------------------------- one sync

  lemma {:induction false} ListEventsArePuts(known: map<Key, AdminState>, group: int, list: seq<Admin>)
    ensures ToChanges(ListEvents(known, group, list)) == DiffLog.Puts(known, ListingOf(group, list))
  {
    if list != [] {
      var front, a := list[..|list| - 1], list[|list| - 1];
      ListEventsArePuts(known, group, front);
      var listing := ListingOf(group, list);
      assert listing[..|listing| - 1] == ListingOf(group, front);
      assert ToChanges(ListEvents(known, group, list))
        == ToChanges(ListEvents(known, group, front)) + ToChanges(EventFor(known, group, a));
    }
  }

  lemma {:induction false} StoredUpserts(admins: Table, group: int, list: seq<Admin>)
    ensures Stored(Upserts(admins, group, list)) == DiffLog.Claim(Stored(admins), ListingOf(group, list))
  {
    if list != [] {
      var front := list[..|list| - 1];
      StoredUpserts(admins, group, front);
      var listing := ListingOf(group, list);
      assert listing[..|listing| - 1] == ListingOf(group, front);
    }
  }

  lemma StoredAfterSync(admins: Table, group: int, list: seq<Admin>)
    ensures Stored(Synced(admins, group, list))
         == DiffLog.Target(Stored(admins), StoredIn(admins, group), ListingOf(group, list))
  {
    var gone := Gone(admins, group, list);
    StoredUpserts(admins, group, list);
    DiffLog.ClaimMinus(Stored(admins), ListingOf(group, list), gone);
    assert Stored(Upserts(admins, group, list) - gone) == Stored(Upserts(admins, group, list)) - gone;
  }

  lemma CallLogs(s: State, c: Call)
    requires Possible(s, c)
    ensures ToChanges(AfterCall(s, c).hist) == ToChanges(s.hist)
      + (DiffLog.Puts(StoredIn(s.admins, c.group), ListingOf(c.group, c.list)) + DiffLog.Dels(c.order))
  {
    var known := StoredIn(s.admins, c.group);
    var listed, removed := ListEvents(known, c.group, c.list), RemovalEvents(known, c.order);
    ListEventsArePuts(known, c.group, c.list);
    assert ToChanges(removed) == DiffLog.Dels(c.order);
    assert ToChanges(s.hist + listed + removed) == ToChanges(s.hist) + (ToChanges(listed) + ToChanges(removed));
  }

  /**
   A sync keeps the history replayable if and only if no user returns silently: listed twice, first
   with another state, then with the stored one.
   */
  lemma SyncKeepsHistory(s: State, c: Call)
    requires Consistent(s) && Possible(s, c)
    ensures Consistent(AfterCall(s, c)) <==> Loud(s, c)
  {
    var known, list := StoredIn(s.admins, c.group), ListingOf(c.group, c.list);
    CallLogs(s, c);
    DiffLog.ReplayConcat(map[], ToChanges(s.hist), DiffLog.Puts(known, list) + DiffLog.Dels(c.order));
    DiffLog.SyncReplays(Stored(s.admins), known, list, c.order);
    StoredAfterSync(s.admins, c.group, c.list);
  }

  /** A list that names one user twice: with another title, then as stored. */
  function DetourList(a: Admin, title: string): seq<Admin> {
    [a.(title := title), a]
  }

  /**
   A list that repeats a user can break the replay: from empty tables, an admin is synced once, and then
   with another title and again as stored.
   */
  lemma RepeatedAdminBreaksReplay(group: int, a: Admin, title: string)
    requires title != a.title
    ensures var s0, first, second := State(map[], []), Call(group, [a], []), Call(group, DetourList(a, title), []);
      && Possible(s0, first) && Consistent(AfterCall(s0, first))
      && Possible(AfterCall(s0, first), second) && !Consistent(AfterCall(AfterCall(s0, first), second))
  {
    var s0, first, second := State(map[], []), Call(group, [a], []), Call(group, DetourList(a, title), []);
    var key := (group, a.userId);
    FirstAdmin(group, a);
    var s := AfterCall(s0, first);
    var known, listing := StoredIn(s.admins, group), ListingOf(group, DetourList(a, title));
    var e, f := (key, StateOf(a)), (key, StateOf(a.(title := title)));
    assert listing == [f, e] && [f, e][..1] == [f];
    assert f in listing && key in DiffLog.Keys(listing);
    assert DiffLog.Claim(known, [f, e]) == DiffLog.Claim(known, [f])[key := e.1];
    assert DiffLog.SilentReturn(known, listing, key);
    assert Possible(s, second);
    SyncKeepsHistory(s, second);
  }

  lemma FirstAdmin(group: int, a: Admin)
    ensures var s0, first := State(map[], []), Call(group, [a], []);
      && Possible(s0, first) && Consistent(AfterCall(s0, first))
      && StoredIn(AfterCall(s0, first).admins, group) == map[(group, a.userId) := StateOf(a)]
  {
    var s0, first := State(map[], []), Call(group, [a], []);
    assert Possible(s0, first);
    assert s0.hist == [] && ToChanges([]) == [];
    assert DistinctUsers([a]);
    assert Consistent(s0) && AllAccurate(s0.hist);
    SyncIsAccurate(s0, first);
    assert Gone(map[], group, [a]) == {};
    assert [a][..0] == [];
    assert Upserts(map[], group, [a]) == map[(group, a.userId) := RowOf(a)];
  }

  /** A sync touches one group only. */
  lemma OtherGroupsUntouched(s: State, c: Call, k: Key)
    requires Possible(s, c) && k.0 != c.group
    ensures k in AfterCall(s, c).admins <==> k in s.admins
    ensures k in s.admins ==> AfterCall(s, c).admins[k] == s.admins[k]
    ensures forall i :: |s.hist| <= i < |AfterCall(s, c).hist| ==> AfterCall(s, c).hist[i].group == c.group
  {
    OtherGroupsUpserts(s.admins, c.group, c.list, k);
    EventsOfGroup(StoredIn(s.admins, c.group), c.group, c.list);
    assert forall k <- c.order :: k.0 == c.group;
  }

  lemma {:induction false} OtherGroupsUpserts(admins: Table, group: int, list: seq<Admin>, k: Key)
    requires k.0 != group
    ensures k in Upserts(admins, group, list) <==> k in admins
    ensures k in admins ==> Upserts(admins, group, list)[k] == admins[k]
  {
    if list != [] {
      OtherGroupsUpserts(admins, group, list[..|list| - 1], k);
    }
  }

  lemma {:induction false} EventsOfGroup(known: map<Key, AdminState>, group: int, list: seq<Admin>)
    ensures forall i :: 0 <= i < |ListEvents(known, group, list)| ==> ListEvents(known, group, list)[i].group == group
  {
    if list != [] {
      EventsOfGroup(known, group, list[..|list| - 1]);
    }
  }

  // ---------------------------------------------------------------- accurate entries

  /** An event says what really happened to the administrators m known so far. */
  ghost predicate Accurate(m: map<Key, AdminState>, e: Event) {
    var k := (e.group, e.user);
    match e.action
    case Added => k !in m
    case Updated => k in m && m[k] != e.state
    case Removed => k in m && m[k] == e.state
  }

  ghost predicate AllAccurate(hist: seq<Event>) {
    forall i :: 0 <= i < |hist| ==> Accurate(ReplayHistory(hist[..i]), hist[i])
  }

  lemma AccurateSnoc(hist: seq<Event>, e: Event)
    requires AllAccurate(hist) && Accurate(ReplayHistory(hist), e)
    ensures AllAccurate(hist + [e])
  {
    forall i | 0 <= i <= |hist|
      ensures Accurate(ReplayHistory((hist + [e])[..i]), (hist + [e])[i])
    {
      assert (hist + [e])[..i] == hist[..i];
      assert hist[..|hist|] == hist;
    }
  }

  /** While the list is logged, every user not yet reached is as stored. */
  lemma {:induction false} ListEventsAccurate(s: State, group: int, list: seq<Admin>)
    requires Consistent(s) && AllAccurate(s.hist) && DistinctUsers(list)
    ensures AllAccurate(s.hist + ListEvents(StoredIn(s.admins, group), group, list))
  {
    var known := StoredIn(s.admins, group);
    if list == [] {
      assert s.hist + ListEvents(known, group, list) == s.hist;
    } else {
      var front, a := list[..|list| - 1], list[|list| - 1];
      ListEventsAccurate(s, group, front);
      var hist := s.hist + ListEvents(known, group, front);
      var k := (group, a.userId);
      UnlistedAsStored(s, group, front, k);
      if EventFor(known, group, a) == [] {
        assert s.hist + ListEvents(known, group, list) == hist;
      } else {
        var e := EventFor(known, group, a)[0];
        assert s.hist + ListEvents(known, group, list) == hist + [e];
        AccurateSnoc(hist, e);
      }
    }
  }

  lemma UnlistedAsStored(s: State, group: int, list: seq<Admin>, k: Key)
    requires Consistent(s) && k.0 == group && forall i :: 0 <= i < |list| ==> list[i].userId != k.1
    ensures var m := ReplayHistory(s.hist + ListEvents(StoredIn(s.admins, group), group, list));
      && (k in m <==> k in s.admins) && (k in m ==> m[k] == s.admins[k].state)
  {
    var known := StoredIn(s.admins, group);
    var puts := DiffLog.Puts(known, ListingOf(group, list));
    ListEventsArePuts(known, group, list);
    assert ToChanges(s.hist + ListEvents(known, group, list)) == ToChanges(s.hist) + puts;
    DiffLog.ReplayConcat(map[], ToChanges(s.hist), puts);
    assert k !in DiffLog.Keys(ListingOf(group, list));
    DiffLog.ReplayPutsAt(Stored(s.admins), known, ListingOf(group, list), k);
  }

  lemma AppendAccurate(hist: seq<Event>, more: seq<Event>)
    requires AllAccurate(hist)
    requires forall i :: 0 <= i < |more| ==> Accurate(ReplayHistory(hist + more[..i]), more[i])
    ensures AllAccurate(hist + more)
  {
    var all := hist + more;
    forall i | 0 <= i < |all|
      ensures Accurate(ReplayHistory(all[..i]), all[i])
    {
      if i < |hist| {
        assert all[..i] == hist[..i];
      } else {
        assert all[..i] == hist + more[..i - |hist|];
      }
    }
  }

  lemma {:induction false} RemovalsAccurate(s: State, c: Call)
    requires Consistent(s) && AllAccurate(s.hist) && DistinctUsers(c.list) && Possible(s, c)
    ensures var known := StoredIn(s.admins, c.group);
      AllAccurate(s.hist + ListEvents(known, c.group, c.list) + RemovalEvents(known, c.order))
  {
    var known := StoredIn(s.admins, c.group);
    var removals := RemovalEvents(known, c.order);
    ListEventsAccurate(s, c.group, c.list);
    forall i | 0 <= i < |removals|
      ensures Accurate(ReplayHistory(s.hist + ListEvents(known, c.group, c.list) + removals[..i]), removals[i])
    {
      RemovedAsStored(s, c, i);
    }
    AppendAccurate(s.hist + ListEvents(known, c.group, c.list), removals);
  }

  /** When the n-th removal is logged, the replay still has that administrator as stored. */
  lemma RemovedAsStored(s: State, c: Call, n: nat)
    requires Consistent(s) && Possible(s, c) && n < |c.order|
    ensures var known := StoredIn(s.admins, c.group);
      var m := ReplayHistory(s.hist + ListEvents(known, c.group, c.list) + RemovalEvents(known, c.order)[..n]);
      c.order[n] in m && m[c.order[n]] == known[c.order[n]]
  {
    var known := StoredIn(s.admins, c.group);
    var hist := s.hist + ListEvents(known, c.group, c.list);
    var k := c.order[n];
    assert k in c.order && k !in DiffLog.Keys(ListingOf(c.group, c.list));
    forall i | 0 <= i < |c.list|
      ensures c.list[i].userId != k.1
    {
      assert ListingOf(c.group, c.list)[i] in ListingOf(c.group, c.list);
    }
    UnlistedAsStored(s, c.group, c.list, k);
    var before := c.order[..n];
    var dels := DiffLog.Dels<Key, AdminState>(before);
    assert ToChanges(hist + RemovalEvents(known, c.order)[..n]) == ToChanges(hist) + dels;
    DiffLog.ReplayConcat(map[], ToChanges(hist), dels);
    DiffLog.ReplayDels(ReplayHistory(hist), before, set j <- before :: j);
    assert k !in before;
  }

  lemma SyncIsAccurate(s: State, c: Call)
    requires Consistent(s) && AllAccurate(s.hist) && DistinctUsers(c.list) && Possible(s, c)
    ensures Consistent(AfterCall(s, c)) && AllAccurate(AfterCall(s, c).hist)
  {
    var known, list := StoredIn(s.admins, c.group), ListingOf(c.group, c.list);
    assert DiffLog.DistinctKeys(list);
    forall k | k in DiffLog.Keys(list)
      ensures !DiffLog.SilentReturn(known, list, k)
    {
      DiffLog.DistinctIsLoud(known, list, k);
    }
    SyncKeepsHistory(s, c);
    RemovalsAccurate(s, c);
  }

  // ---------------------------------------------------------------- the table

  /** The i-th administrator is the last one listed for the user. */
  ghost predicate LastListed(list: seq<Admin>, user: int, i: nat) {
    i < |list| && list[i].userId == user && forall j :: i < j < |list| ==> list[j].userId != user
  }

  /**
   After a sync exactly the listed users are administrators of the group, column by column as last listed; an
   owner is stored as the creator.
   */
  lemma SyncedRow(admins: Table, group: int, list: seq<Admin>, user: int)
    ensures (group, user) in Synced(admins, group, list) <==> exists i: nat :: LastListed(list, user, i)
    ensures forall i: nat :: LastListed(list, user, i) ==>
      && (group, user) in Synced(admins, group, list)
      && var row := Synced(admins, group, list)[(group, user)];
      && row.state.status == (if list[i].isOwner then Creator else Administrator)
      && row.state.title == list[i].title && row.state.rights == list[i].rights
      && row.inviter == list[i].inviter && row.joined == list[i].joined
  {
    UpsertedRow(admins, group, list, user);
    ListedKeys(group, list, user);
  }

  lemma {:induction false} ListedKeys(group: int, list: seq<Admin>, user: int)
    ensures (group, user) in DiffLog.Keys(ListingOf(group, list)) <==> exists i: nat :: LastListed(list, user, i)
  {
    if list != [] {
      var n := |list| - 1;
      var front := list[..n];
      ListedKeys(group, front, user);
      assert ListingOf(group, list) == ListingOf(group, front) + [((group, list[n].userId), StateOf(list[n]))];
      if list[n].userId == user {
        assert LastListed(list, user, n);
      } else {
        assert forall i: nat :: LastListed(front, user, i) ==> LastListed(list, user, i);
        assert forall i: nat :: LastListed(list, user, i) ==> LastListed(front, user, i);
      }
    }
  }

  lemma {:induction false} UpsertedRow(admins: Table, group: int, list: seq<Admin>, user: int)
    ensures (group, user) in Upserts(admins, group, list)
      <==> (group, user) in admins || exists i: nat :: LastListed(list, user, i)
    ensures forall i: nat :: LastListed(list, user, i) ==>
      (group, user) in Upserts(admins, group, list) && Upserts(admins, group, list)[(group, user)] == RowOf(list[i])
  {
    if list != [] {
      var n := |list| - 1;
      var front := list[..n];
      UpsertedRow(admins, group, front, user);
      if list[n].userId == user {
        assert LastListed(list, user, n);
      } else {
        assert forall i: nat :: LastListed(front, user, i) ==> LastListed(list, user, i);
        assert forall i: nat :: LastListed(list, user, i) ==> LastListed(front, user, i);
      }
    }
  }

  // ---------------------------------------------------------------- whole runs

  /** `states[i]` is the state before the i-th call. */
  ghost predicate IsRun(calls: seq<Call>, states: seq<State>) {
    && |states| == |calls| + 1
    && forall i :: 0 <= i < |calls| ==> Possible(states[i], calls[i]) && states[i + 1] == AfterCall(states[i], calls[i])
  }

  lemma {:induction false} RunIsAccurate(calls: seq<Call>, states: seq<State>, n: nat)
    requires IsRun(calls, states) && n <= |calls|
    requires Consistent(states[0]) && AllAccurate(states[0].hist)
    requires forall c <- calls :: DistinctUsers(c.list)
    ensures Consistent(states[n]) && AllAccurate(states[n].hist)
  {
    if n > 0 {
      RunIsAccurate(calls, states, n - 1);
      SyncIsAccurate(states[n - 1], calls[n - 1]);
    }
  }

  lemma {:induction false} HistoryOnlyGrows(calls: seq<Call>, states: seq<State>, i: nat, n: nat)
    requires IsRun(calls, states) && i <= n <= |calls|
    ensures states[i].hist <= states[n].hist
  {
    if i < n {
      HistoryOnlyGrows(calls, states, i, n - 1);
    }
  }

  /**
   The administrator history is complete.  After any sequence of syncs of any groups, each with
   distinct users: the history replays to exactly the stored administrators; every earlier stored
   state is the replay of a prefix of it; and every entry is accurate when read in order, a removal
   carrying the state the replay had just before it.
   */
  lemma HistoryIsComplete(calls: seq<Call>, states: seq<State>, i: nat)
    requires IsRun(calls, states) && states[0] == State(map[], []) && i <= |calls|
    requires forall c <- calls :: DistinctUsers(c.list)
    ensures var last := states[|calls|];
      && ReplayHistory(last.hist) == Stored(last.admins)
      && AllAccurate(last.hist)
      && |states[i].hist| <= |last.hist|
      && ReplayHistory(last.hist[..|states[i].hist|]) == Stored(states[i].admins)
  {
    RunIsAccurate(calls, states, |calls|);
    RunIsAccurate(calls, states, i);
    HistoryOnlyGrows(calls, states, i, |calls|);
    assert states[|calls|].hist[..|states[i].hist|] == states[i].hist;
  }

  // ---------------------------------------------------------------- groups keep their administrators

  ghost predicate HasAdmins(admins: Table, group: int) {
    exists k :: k in admins && k.0 == group
  }

  /** A sync with a non-empty list leaves its group non-empty and every other group as it was. */
  lemma SyncKeepsAdmins(s: State, c: Call, group: int)
    requires Possible(s, c) && c.list != [] && HasAdmins(s.admins, group)
    ensures HasAdmins(AfterCall(s, c).admins, group)
  {
    if group == c.group {
      var a := c.list[|c.list| - 1];
      var k := (group, a.userId);
      assert ListingOf(c.group, c.list)[|c.list| - 1] in ListingOf(c.group, c.list);
      assert k in DiffLog.Keys(ListingOf(c.group, c.list));
      assert k in AfterCall(s, c).admins;
    } else {
      var k :| k in s.admins && k.0 == group;
      OtherGroupsUntouched(s, c, k);
    }
  }

  lemma {:induction false} RunKeepsAdmins(calls: seq<Call>, states: seq<State>, group: int, i: nat, n: nat)
    requires IsRun(calls, states) && i <= n <= |calls| && forall c <- calls :: c.list != []
    requires HasAdmins(states[i].admins, group)
    ensures HasAdmins(states[n].admins, group)
  {
    if i < n {
      RunKeepsAdmins(calls, states, group, i, n - 1);
      SyncKeepsAdmins(states[n - 1], calls[n - 1], group);
    }
  }

  /** An empty list would erase a group: the caller's duty never to sync a failed fetch is real. */
  lemma EmptyListErases(s: State, c: Call)
    requires Possible(s, c) && c.list == []
    ensures !HasAdmins(AfterCall(s, c).admins, c.group)
  {
    var after := AfterCall(s, c).admins;
    assert DiffLog.Keys(ListingOf(c.group, c.list)) == {};
    assert after == s.admins - StoredIn(s.admins, c.group).Keys;
  }
}
