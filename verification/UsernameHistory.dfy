/**
 What the username event log is worth: replaying it gives back who owns which username, of which
 kind and at which position, across any number of owners taking names from each other.
 */
module UsernameHistory {
  import opened Common
  import DiffLog
  import opened Usernames

  function ToChange(e: Event): DiffLog.Change<string, Entry> {
    match e.entry
    case Some(entry) => DiffLog.Put(e.name, entry)
    case None => DiffLog.Del(e.name)
  }

  function ToChanges(events: seq<Event>): seq<DiffLog.Change<string, Entry>> {
    seq(|events|, i requires 0 <= i < |events| => ToChange(events[i]))
  }

  /** The owned usernames according to the history alone. */
  function ReplayEvents(events: seq<Event>): map<string, Entry> {
    DiffLog.Replay(map[], ToChanges(events))
  }

  // ---------------------------------------------------------------- the log of one sync

  lemma {:induction false} ListEventsArePuts(rows: Table, owner: int, list: Listing)
    requires OwnedBy(list, owner)
    ensures ToChanges(ListEvents(Held(rows, owner), list)) == DiffLog.Puts(Held(rows, owner), list)
  {
    if list != [] {
      var front := list[..|list| - 1];
      var (n, e) := list[|list| - 1];
      ListEventsArePuts(rows, owner, front);
      var held := Held(rows, owner);
      assert ToChanges(ListEvents(held, list)) == ToChanges(ListEvents(held, front)) + ToChanges(EventFor(held, n, e));
    }
  }

  /** Seen as owned entries, a sync is a sync of the generic diff log. */
  lemma {:induction false} OwnedUpserts(rows: Table, list: Listing)
    ensures Owned(Upserts(rows, list)) == DiffLog.Claim(Owned(rows), list)
  {
    if list != [] {
      OwnedUpserts(rows, list[..|list| - 1]);
    }
  }

  lemma OwnedAfterSync(rows: Table, owner: int, list: Listing)
    ensures Owned(Synced(rows, owner, list)) == DiffLog.Target(Owned(rows), Held(rows, owner), list)
  {
    var gone := Held(rows, owner).Keys - DiffLog.Keys(list);
    OwnedUpserts(Release(rows, owner, gone), list);
    assert Owned(Release(rows, owner, gone)) == Owned(rows) - gone;
  }

  /** A state of the two tables. */
  datatype State = State(rows: Table, events: seq<Event>)

  datatype Call = Call(
    owner: int, active: seq<string>, disabled: seq<string>, collectible: seq<string>, order: seq<string>)

  function CallList(c: Call): (list: Listing)
    ensures OwnedBy(list, c.owner)
  {
    ListingOf(c.owner, c.active, c.disabled, c.collectible)
  }

  /** `order` is a possible iteration order of the usernames the call releases. */
  ghost predicate Possible(s: State, c: Call) {
    DiffLog.Lists(c.order, Held(s.rows, c.owner).Keys - DiffLog.Keys(CallList(c)))
  }

  /** What UsernameTable.Sync does to the tables. */
  function AfterCall(s: State, c: Call): State {
    State(Synced(s.rows, c.owner, CallList(c)),
          s.events + ListEvents(Held(s.rows, c.owner), CallList(c)) + RemovalEvents(c.owner, c.order))
  }

  ghost predicate Consistent(s: State) {
    ReplayEvents(s.events) == Owned(s.rows)
  }

  /** No username of the call is listed as something else and then again as it already was. */
  ghost predicate Loud(s: State, c: Call) {
    forall n <- DiffLog.Keys(CallList(c)) :: !DiffLog.SilentReturn(Held(s.rows, c.owner), CallList(c), n)
  }

  /** A call appends to the log exactly what the generic diff log appends. */
  lemma CallLogs(s: State, c: Call)
    ensures ToChanges(AfterCall(s, c).events) == ToChanges(s.events)
      + (DiffLog.Puts(Held(s.rows, c.owner), CallList(c)) + DiffLog.Dels(c.order))
  {
    var listed, removed := ListEvents(Held(s.rows, c.owner), CallList(c)), RemovalEvents(c.owner, c.order);
    ListEventsArePuts(s.rows, c.owner, CallList(c));
    assert ToChanges(removed) == DiffLog.Dels(c.order);
    ToChangesConcat(s.events, listed, removed);
  }

  lemma ToChangesConcat(a: seq<Event>, b: seq<Event>, c: seq<Event>)
    ensures ToChanges(a + b + c) == ToChanges(a) + (ToChanges(b) + ToChanges(c))
  {
  }

  /**
   Starting from a consistent history, a sync leaves it consistent if and only if no username
   returns silently.  This holds for every listing, repeated names and names taken from other owners
   included, and for every order of the removals.
   */
  lemma SyncKeepsHistory(s: State, c: Call)
    requires Consistent(s) && Possible(s, c)
    ensures Consistent(AfterCall(s, c)) <==> Loud(s, c)
  {
    var held, list := Held(s.rows, c.owner), CallList(c);
    CallLogs(s, c);
    DiffLog.ReplayConcat(map[], ToChanges(s.events), DiffLog.Puts(held, list) + DiffLog.Dels(c.order));
    DiffLog.SyncReplays(Owned(s.rows), held, list, c.order);
    OwnedAfterSync(s.rows, c.owner, list);
  }

  /** Names distinct within the snapshot, across its three lists. */
  predicate DistinctNames(c: Call) {
    forall i, j :: 0 <= i < j < |CallList(c)| ==> CallList(c)[i].0 != CallList(c)[j].0
  }

  // ---------------------------------------------------------------- whole runs

  function Run(s: State, calls: seq<Call>): State {
    if calls == [] then s else AfterCall(Run(s, calls[..|calls| - 1]), calls[|calls| - 1])
  }

  ghost predicate PossibleRun(s: State, calls: seq<Call>) {
    calls != [] ==>
      PossibleRun(s, calls[..|calls| - 1]) && Possible(Run(s, calls[..|calls| - 1]), calls[|calls| - 1])
  }

  /** No call of the run lets a name return silently. */
  ghost predicate LoudRun(s: State, calls: seq<Call>) {
    calls != [] ==> LoudRun(s, calls[..|calls| - 1]) && Loud(Run(s, calls[..|calls| - 1]), calls[|calls| - 1])
  }

  /** The history is right before, between and after the calls of the run. */
  ghost predicate ConsistentThroughout(s: State, calls: seq<Call>) {
    Consistent(Run(s, calls)) && (calls != [] ==> ConsistentThroughout(s, calls[..|calls| - 1]))
  }

  /** The history stays right throughout a run if and only if no call lets a name return silently. */
  lemma {:induction false} RunKeepsHistory(s: State, calls: seq<Call>)
    requires Consistent(s) && PossibleRun(s, calls)
    ensures ConsistentThroughout(s, calls) <==> LoudRun(s, calls)
  {
    if calls != [] {
      var front := calls[..|calls| - 1];
      RunKeepsHistory(s, front);
      if LoudRun(s, front) {
        SyncKeepsHistory(Run(s, front), calls[|calls| - 1]);
      }
    }
  }

  lemma DistinctIsLoudCall(s: State, c: Call)
    requires DistinctNames(c)
    ensures Loud(s, c)
  {
    forall n | n in DiffLog.Keys(CallList(c))
      ensures !DiffLog.SilentReturn(Held(s.rows, c.owner), CallList(c), n)
    {
      DiffLog.DistinctIsLoud(Held(s.rows, c.owner), CallList(c), n);
    }
  }

  lemma {:induction false} DistinctRunIsLoud(s: State, calls: seq<Call>)
    requires forall c <- calls :: DistinctNames(c)
    ensures LoudRun(s, calls)
  {
    if calls != [] {
      assert calls[|calls| - 1] in calls;
      DistinctRunIsLoud(s, calls[..|calls| - 1]);
      DistinctIsLoudCall(Run(s, calls[..|calls| - 1]), calls[|calls| - 1]);
    }
  }

  /**
   From empty tables, after any sequence of syncs by any owners with names distinct within each
   snapshot, the event log replayed in order gives exactly the owned usernames with their owner,
   kind and position.
   */
  lemma {:induction false} HistoryIsComplete(calls: seq<Call>)
    requires PossibleRun(State(map[], []), calls) && forall c <- calls :: DistinctNames(c)
    ensures ReplayEvents(Run(State(map[], []), calls).events) == Owned(Run(State(map[], []), calls).rows)
  {
    var s := State(map[], []);
    assert Consistent(s) by {
      assert ToChanges([]) == [];
    }
    DistinctRunIsLoud(s, calls);
    RunKeepsHistory(s, calls);
  }

  /** A name is listed as collectible. */
  function First(owner: int, name: string): Call {
    Call(owner, [], [], [name], [])
  }

  /** It is listed as active, and again as it was. */
  function Second(owner: int, name: string): Call {
    Call(owner, [name], [], [name], [])
  }

  lemma FirstHolds(owner: int, name: string)
    ensures var s0, s := State(map[], []), AfterCall(State(map[], []), First(owner, name));
      && Possible(s0, First(owner, name)) && Consistent(s)
      && Held(s.rows, owner) == map[name := Entry(owner, Collectible, 0)]
  {
    var s0, c := State(map[], []), First(owner, name);
    var list := CallList(c);
    assert list == [(name, Entry(owner, Collectible, 0))];
    assert Held(s0.rows, owner) == map[];
    assert Consistent(s0) by {
      assert ToChanges([]) == [];
    }
    DistinctIsLoudCall(s0, c);
    SyncKeepsHistory(s0, c);
    FirstRow(list, owner, name);
  }

  lemma FirstRow(list: Listing, owner: int, name: string)
    requires list == [(name, Entry(owner, Collectible, 0))]
    ensures Held(Synced(map[], owner, list), owner) == map[name := Entry(owner, Collectible, 0)]
  {
    assert list[..0] == [];
    assert Release(map[], owner, Held(map[], owner).Keys - DiffLog.Keys(list)) == map[];
    assert Upserts(map[], list) == map[name := Row(Some(owner), Collectible, 0)];
  }

  lemma SecondReturns(known: map<string, Entry>, owner: int, name: string)
    requires known == map[name := Entry(owner, Collectible, 0)]
    ensures var list := CallList(Second(owner, name));
      name in DiffLog.Keys(list) && DiffLog.SilentReturn(known, list, name)
  {
    var list := CallList(Second(owner, name));
    var e, f := (name, Entry(owner, Collectible, 0)), (name, Entry(owner, Active, 0));
    assert list == [f, e] && list[..1] == [f];
    assert f in list;
    assert DiffLog.Claim(known, list) == DiffLog.Claim(known, [f])[name := e.1];
  }

  /**
   A snapshot that repeats a name can break the replay: from empty tables, a name is listed as
   collectible, and then as active and again as it was.
   */
  lemma RepeatedNameBreaksReplay(owner: int, name: string)
    ensures var s0, first, second := State(map[], []), First(owner, name), Second(owner, name);
      && Possible(s0, first) && Consistent(AfterCall(s0, first))
      && Possible(AfterCall(s0, first), second) && !Consistent(AfterCall(AfterCall(s0, first), second))
  {
    FirstHolds(owner, name);
    var s, c := AfterCall(State(map[], []), First(owner, name)), Second(owner, name);
    SecondReturns(Held(s.rows, owner), owner, name);
    assert Possible(s, c);
    SyncKeepsHistory(s, c);
  }

  // ---------------------------------------------------------------- what each event says

  /** The event is true of the usernames m owned just before it. */
  ghost predicate Accurate(m: map<string, Entry>, e: Event) {
    var held := e.name in m && m[e.name].owner == e.owner;
    match e.action
    case Added => !held && EntryOfOwner(e)
    case KindChanged => held && EntryOfOwner(e) && m[e.name].kind != e.entry.value.kind
    case Reordered =>
      && held && EntryOfOwner(e)
      && m[e.name].kind == e.entry.value.kind && m[e.name].position != e.entry.value.position
    case Removed => held && e.entry.None?
  }

  predicate EntryOfOwner(e: Event) {
    e.entry.Some? && e.entry.value.owner == e.owner
  }

  ghost predicate AllAccurate(events: seq<Event>) {
    forall i :: 0 <= i < |events| ==> Accurate(ReplayEvents(events[..i]), events[i])
  }

  lemma AppendAccurate(events: seq<Event>, more: seq<Event>)
    requires AllAccurate(events)
    requires forall i :: 0 <= i < |more| ==> Accurate(ReplayEvents(events + more[..i]), more[i])
    ensures AllAccurate(events + more)
  {
    var all := events + more;
    forall i | 0 <= i < |all|
      ensures Accurate(ReplayEvents(all[..i]), all[i])
    {
      if i < |events| {
        assert all[..i] == events[..i];
      } else {
        assert all[..i] == events + more[..i - |events|];
      }
    }
  }

  /** While a list is logged, every name not yet reached is as owned before. */
  lemma UnlistedAsOwned(s: State, owner: int, list: Listing, n: string)
    requires Consistent(s) && OwnedBy(list, owner) && n !in DiffLog.Keys(list)
    ensures var m := ReplayEvents(s.events + ListEvents(Held(s.rows, owner), list));
      && (n in m <==> n in Owned(s.rows)) && (n in m ==> m[n] == Owned(s.rows)[n])
  {
    var held := Held(s.rows, owner);
    var puts := DiffLog.Puts(held, list);
    ListEventsArePuts(s.rows, owner, list);
    assert ToChanges(s.events + ListEvents(held, list)) == ToChanges(s.events) + puts;
    DiffLog.ReplayConcat(map[], ToChanges(s.events), puts);
    DiffLog.ReplayPutsAt(Owned(s.rows), held, list, n);
  }

  lemma EventForIsAccurate(rows: Table, owner: int, m: map<string, Entry>, n: string, e: Entry)
    requires e.owner == owner && (n in m <==> n in Owned(rows)) && (n in m ==> m[n] == Owned(rows)[n])
    ensures var more := EventFor(Held(rows, owner), n, e);
      |more| <= 1 && (more != [] ==> Accurate(m, more[0]))
  {
  }

  lemma AppendEvent(events: seq<Event>, more: seq<Event>)
    requires AllAccurate(events) && |more| <= 1 && (more != [] ==> Accurate(ReplayEvents(events), more[0]))
    ensures AllAccurate(events + more)
  {
    assert events + [] == events;
    AppendAccurate(events, more);
  }

  lemma EventIsAccurate(s: State, owner: int, front: Listing, n: string, e: Entry)
    requires Consistent(s) && OwnedBy(front, owner) && n !in DiffLog.Keys(front) && e.owner == owner
    requires AllAccurate(s.events + ListEvents(Held(s.rows, owner), front))
    ensures AllAccurate(s.events + ListEvents(Held(s.rows, owner), front) + EventFor(Held(s.rows, owner), n, e))
  {
    var events := s.events + ListEvents(Held(s.rows, owner), front);
    UnlistedAsOwned(s, owner, front, n);
    EventForIsAccurate(s.rows, owner, ReplayEvents(events), n, e);
    AppendEvent(events, EventFor(Held(s.rows, owner), n, e));
  }

  lemma {:induction false} ListEventsAccurate(s: State, owner: int, list: Listing)
    requires Consistent(s) && AllAccurate(s.events) && OwnedBy(list, owner) && DiffLog.DistinctKeys(list)
    ensures AllAccurate(s.events + ListEvents(Held(s.rows, owner), list))
  {
    var held := Held(s.rows, owner);
    if list == [] {
      assert s.events + ListEvents(held, list) == s.events;
    } else {
      var front, last := list[..|list| - 1], list[|list| - 1];
      ListEventsAccurate(s, owner, front);
      assert last.0 !in DiffLog.Keys(front);
      EventIsAccurate(s, owner, front, last.0, last.1);
      assert s.events + ListEvents(held, list) == s.events + ListEvents(held, front) + EventFor(held, last.0, last.1);
    }
  }

  /** When the i-th removal is logged, the owner still holds that name. */
  lemma RemovedAsOwned(s: State, c: Call, i: nat)
    requires Consistent(s) && Possible(s, c) && i < |c.order|
    ensures var m := ReplayEvents(
        s.events + ListEvents(Held(s.rows, c.owner), CallList(c)) + RemovalEvents(c.owner, c.order)[..i]);
      c.order[i] in m && m[c.order[i]].owner == c.owner
  {
    var events := s.events + ListEvents(Held(s.rows, c.owner), CallList(c));
    var before := c.order[..i];
    assert c.order[i] in c.order;
    UnlistedAsOwned(s, c.owner, CallList(c), c.order[i]);
    var dels := DiffLog.Dels<string, Entry>(before);
    assert ToChanges(events + RemovalEvents(c.owner, c.order)[..i]) == ToChanges(events) + dels;
    DiffLog.ReplayConcat(map[], ToChanges(events), dels);
    DiffLog.ReplayDels(ReplayEvents(events), before, set n <- before :: n);
    assert c.order[i] !in before;
  }

  /** With distinct names every event is true of what the replay says just before it. */
  lemma SyncIsAccurate(s: State, c: Call)
    requires Consistent(s) && AllAccurate(s.events) && DistinctNames(c) && Possible(s, c)
    ensures Consistent(AfterCall(s, c)) && AllAccurate(AfterCall(s, c).events)
  {
    var removals := RemovalEvents(c.owner, c.order);
    DistinctIsLoudCall(s, c);
    SyncKeepsHistory(s, c);
    ListEventsAccurate(s, c.owner, CallList(c));
    forall i | 0 <= i < |removals|
      ensures Accurate(
        ReplayEvents(s.events + ListEvents(Held(s.rows, c.owner), CallList(c)) + removals[..i]), removals[i])
    {
      RemovedAsOwned(s, c, i);
    }
    AppendAccurate(s.events + ListEvents(Held(s.rows, c.owner), CallList(c)), removals);
  }

  /** So every event ever logged is, from empty tables on. */
  lemma {:induction false} RunIsAccurate(calls: seq<Call>)
    requires PossibleRun(State(map[], []), calls) && forall c <- calls :: DistinctNames(c)
    ensures Consistent(Run(State(map[], []), calls)) && AllAccurate(Run(State(map[], []), calls).events)
  {
    var s := State(map[], []);
    if calls == [] {
      assert ToChanges([]) == [];
    } else {
      var front := calls[..|calls| - 1];
      assert calls[|calls| - 1] in calls;
      RunIsAccurate(front);
      SyncIsAccurate(Run(s, front), calls[|calls| - 1]);
    }
  }

  // ---------------------------------------------------------------- the table

  /** The i-th entry is the last one listed for n. */
  ghost predicate LastListed(list: Listing, n: string, i: nat) {
    i < |list| && list[i].0 == n && forall j :: i < j < |list| ==> list[j].0 != n
  }

  /** What one username's row becomes: claimed as last listed, released in place, or untouched. */
  lemma SyncedRow(rows: Table, owner: int, list: Listing, n: string)
    requires OwnedBy(list, owner)
    ensures n in Synced(rows, owner, list) <==> n in rows || n in DiffLog.Keys(list)
    ensures n in DiffLog.Keys(list) ==> exists i: nat ::
      LastListed(list, n, i) && Synced(rows, owner, list)[n] == Row(Some(owner), list[i].1.kind, list[i].1.position)
    ensures n in rows && n !in DiffLog.Keys(list) ==>
      Synced(rows, owner, list)[n] == (if rows[n].owner == Some(owner) then rows[n].(owner := None) else rows[n])
  {
    var i := UpsertedRow(Release(rows, owner, Held(rows, owner).Keys - DiffLog.Keys(list)), owner, list, n);
  }

  lemma {:induction false} UpsertedRow(rows: Table, owner: int, list: Listing, n: string) returns (i: nat)
    requires OwnedBy(list, owner)
    ensures n in Upserts(rows, list) <==> n in rows || n in DiffLog.Keys(list)
    ensures n in DiffLog.Keys(list) ==>
      LastListed(list, n, i) && Upserts(rows, list)[n] == Row(Some(owner), list[i].1.kind, list[i].1.position)
    ensures n in rows && n !in DiffLog.Keys(list) ==> Upserts(rows, list)[n] == rows[n]
  {
    if list == [] {
      i := 0;
    } else {
      var front := list[..|list| - 1];
      var last := list[|list| - 1];
      assert DiffLog.Keys(list) == DiffLog.Keys(front) + {last.0} by {
        assert list == front + [last];
      }
      i := UpsertedRow(rows, owner, front, n);
      if n == last.0 {
        i := |list| - 1;
      }
    }
  }

  /** The i-th of the names is not named again later in the snapshot. */
  predicate NamedLast(names: seq<string>, i: nat, later: seq<string>) {
    i < |names| && names[i] !in names[i + 1..] && names[i] !in later
  }

  /**
   After a sync each listed name is held with the kind of the list it is in and its place in that list; of a
   name listed several times the last place counts, collectible names coming after disabled ones and those
   after active ones.
   */
  lemma {:induction false} SyncedKinds(s: State, c: Call, i: nat)
    ensures var rows := AfterCall(s, c).rows;
      && (NamedLast(c.active, i, c.disabled + c.collectible) ==>
            c.active[i] in rows && rows[c.active[i]] == Row(Some(c.owner), Active, i))
      && (NamedLast(c.disabled, i, c.collectible) ==>
            c.disabled[i] in rows && rows[c.disabled[i]] == Row(Some(c.owner), Disabled, i))
      && (NamedLast(c.collectible, i, []) ==>
            c.collectible[i] in rows && rows[c.collectible[i]] == Row(Some(c.owner), Collectible, i))
  {
    var na, nd := |c.active|, |c.disabled|;
    if NamedLast(c.active, i, c.disabled + c.collectible) {
      ListedKind(s, c, i, c.active[i]);
    }
    if NamedLast(c.disabled, i, c.collectible) {
      ListedKind(s, c, na + i, c.disabled[i]);
    }
    if NamedLast(c.collectible, i, []) {
      ListedKind(s, c, na + nd + i, c.collectible[i]);
    }
  }

  /** The names of the list are those of the three lists, one after the other. */
  lemma ListNames(c: Call, j: nat)
    requires j < |CallList(c)|
    ensures |CallList(c)| == |c.active| + |c.disabled| + |c.collectible|
    ensures CallList(c)[j].0 == (c.active + c.disabled + c.collectible)[j]
  {
  }

  lemma ListedKind(s: State, c: Call, j: nat, n: string)
    requires j < |CallList(c)| && CallList(c)[j].0 == n
    requires n !in (c.active + c.disabled + c.collectible)[j + 1..]
    ensures var e, rows := CallList(c)[j].1, AfterCall(s, c).rows;
      n in rows && rows[n] == Row(Some(c.owner), e.kind, e.position)
  {
    var list := CallList(c);
    SyncedRow(s.rows, c.owner, list, n);
    assert list[j] in list;
    var names := c.active + c.disabled + c.collectible;
    forall k | j < k < |list|
      ensures list[k].0 != n
    {
      ListNames(c, k);
      assert names[j + 1..][k - j - 1] == names[k];
    }
    var i: nat :| LastListed(list, n, i)
      && AfterCall(s, c).rows[n] == Row(Some(c.owner), list[i].1.kind, list[i].1.position);
    assert i == j;
  }

  /** Release everything the owner holds, then claim the new lists in order. */
  function ReleaseAllThenClaim(rows: Table, owner: int, list: Listing): Table {
    Upserts((map n | n in rows :: if rows[n].owner == Some(owner) then rows[n].(owner := None) else rows[n]), list)
  }

  /** The incremental sync has exactly that effect on the table, for all inputs. */
  lemma SyncRefinesReleaseAllThenClaim(rows: Table, owner: int, list: Listing)
    requires OwnedBy(list, owner)
    ensures Synced(rows, owner, list) == ReleaseAllThenClaim(rows, owner, list)
  {
    var a, b := Synced(rows, owner, list), ReleaseAllThenClaim(rows, owner, list);
    var released: Table :=
      map n | n in rows :: if rows[n].owner == Some(owner) then rows[n].(owner := None) else rows[n];
    forall n
      ensures n in a <==> n in b
      ensures n in a ==> a[n] == b[n]
    {
      SyncedRow(rows, owner, list, n);
      var i := UpsertedRow(released, owner, list, n);
    }
  }

  /** Repeating a sync of distinct names logs no event and changes no row. */
  lemma ResyncIsSilent(rows: Table, owner: int, list: Listing)
    requires OwnedBy(list, owner) && DiffLog.DistinctKeys(list)
    ensures var rows' := Synced(rows, owner, list);
      && ListEvents(Held(rows', owner), list) == []
      && Held(rows', owner).Keys - DiffLog.Keys(list) == {}
      && Synced(rows', owner, list) == rows'
  {
    var rows' := Synced(rows, owner, list);
    var held := Held(rows', owner);
    forall i | 0 <= i < |list|
      ensures list[i].0 in held && held[list[i].0] == list[i].1
    {
      SyncedRow(rows, owner, list, list[i].0);
      assert list[i] in list;
      var k: nat :| LastListed(list, list[i].0, k)
        && rows'[list[i].0] == Row(Some(owner), list[k].1.kind, list[k].1.position);
      assert k == i;
    }
    forall n | n in held
      ensures n in DiffLog.Keys(list)
    {
      SyncedRow(rows, owner, list, n);
    }
    QuietEvents(held, list);
    forall n
      ensures n in Synced(rows', owner, list) <==> n in rows'
      ensures n in rows' ==> Synced(rows', owner, list)[n] == rows'[n]
    {
      SyncedRow(rows', owner, list, n);
      SyncedRow(rows, owner, list, n);
      assert n in held ==> n in DiffLog.Keys(list);
    }
  }

  lemma {:induction false} QuietEvents(held: map<string, Entry>, list: Listing)
    requires forall i :: 0 <= i < |list| ==> list[i].0 in held && held[list[i].0] == list[i].1
    ensures ListEvents(held, list) == []
  {
    if list != [] {
      QuietEvents(held, list[..|list| - 1]);
    }
  }
}
