/**
 The administrator table and its history (group_admins, group_admin_hist): DB::syncGroupAdmins.
 */
module GroupAdmins {
  import opened Common
  import opened Models
  import DiffLog

  datatype Status = Creator | Administrator

  /** What the history records about an administrator; inviter and joined date are not part of it. */
  datatype AdminState = AdminState(status: Status, title: string, rights: Rights)

  datatype Row = Row(state: AdminState, inviter: int, joined: int)

  datatype Action = Added | Updated | Removed

  /** A row of group_admin_hist; a removal carries the state before it. */
  datatype Event = Event(group: int, user: int, action: Action, state: AdminState)

  type Key = (int, int)              // UNIQUE (group_id, user_id)
  type Table = map<Key, Row>
  type Listing = seq<(Key, AdminState)>

  // ---------------------------------------------------------------- specification

  function StatusOf(a: Admin): Status {
    if a.isOwner then Creator else Administrator
  }

  function StateOf(a: Admin): AdminState {
    AdminState(StatusOf(a), a.title, a.rights)
  }

  function RowOf(a: Admin): Row {
    Row(StateOf(a), a.inviter, a.joined)
  }

  /** All stored administrators, as far as the history describes them. */
  function Stored(admins: Table): map<Key, AdminState> {
    map k | k in admins :: admins[k].state
  }

  /** The stored administrators of one group: the old_rows of the source. */
  function StoredIn(admins: Table, group: int): map<Key, AdminState> {
    map k | k in admins && k.0 == group :: admins[k].state
  }

  function ListingOf(group: int, list: seq<Admin>): Listing {
    seq(|list|, i requires 0 <= i < |list| => ((group, list[i].userId), StateOf(list[i])))
  }

  function Upserts(admins: Table, group: int, list: seq<Admin>): Table {
    if list == [] then admins
    else
      var a := list[|list| - 1];
      Upserts(admins, group, list[..|list| - 1])[(group, a.userId) := RowOf(a)]
  }

  function EventFor(known: map<Key, AdminState>, group: int, a: Admin): seq<Event> {
    if (group, a.userId) !in known then [Event(group, a.userId, Added, StateOf(a))]
    else if known[(group, a.userId)] != StateOf(a) then [Event(group, a.userId, Updated, StateOf(a))]
    else []
  }

  function ListEvents(known: map<Key, AdminState>, group: int, list: seq<Admin>): seq<Event> {
    if list == [] then []
    else ListEvents(known, group, list[..|list| - 1]) + EventFor(known, group, list[|list| - 1])
  }

  function RemovalEvents(known: map<Key, AdminState>, order: seq<Key>): seq<Event>
    requires forall k <- order :: k in known
  {
    seq(|order|, i requires 0 <= i < |order| => Event(order[i].0, order[i].1, Removed, known[order[i]]))
  }

  function Gone(admins: Table, group: int, list: seq<Admin>): set<Key> {
    StoredIn(admins, group).Keys - DiffLog.Keys(ListingOf(group, list))
  }

  function Synced(admins: Table, group: int, list: seq<Admin>): Table {
    Upserts(admins, group, list) - Gone(admins, group, list)
  }

  // ---------------------------------------------------------------- the procedure

  class AdminTable {
    var admins: Table
    var hist: seq<Event>

    constructor ()
      ensures admins == map[] && hist == []
    {
      admins := map[];
      hist := [];
    }

    /** syncGroupAdmins; `order` is the order in which the query returned the rows to remove. */
    method Sync(group: int, list: seq<Admin>) returns (ghost order: seq<Key>)
      modifies this
      ensures var known := StoredIn(old(admins), group);
        && DiffLog.Lists(order, Gone(old(admins), group, list))
        && (forall k <- order :: k in known)
        && admins == Synced(old(admins), group, list)
        && hist == old(hist) + ListEvents(known, group, list) + RemovalEvents(known, order)
    {
      var known := StoredIn(admins, group);
      var listed := CollectIds(group, list);
      UpsertListed(known, group, list);
      order := RemoveGone(known, listed);
    }

    /** The keys of new_map. */
    static method CollectIds(group: int, list: seq<Admin>) returns (listed: set<Key>)
      ensures listed == DiffLog.Keys(ListingOf(group, list))
    {
      listed := {};
      for i := 0 to |list|
        invariant listed == DiffLog.Keys(ListingOf(group, list[..i]))
      {
        assert ListingOf(group, list[..i + 1])
          == ListingOf(group, list[..i]) + [((group, list[i].userId), StateOf(list[i]))];
        listed := listed + {(group, list[i].userId)};
      }
      assert list[..|list|] == list;
    }

    /** Status, title, then the rights flag by flag. */
    static method HasChanged(was: AdminState, a: Admin) returns (changed: bool)
      ensures changed <==> was != StateOf(a)
    {
      changed := false;
      if was.status != StatusOf(a) || was.title != a.title {
        changed := true;
      } else {
        var i := 0;
        while i < 17 && !changed
          invariant 0 <= i <= 17
          invariant !changed ==> forall j :: 0 <= j < i ==> was.rights[j] == a.rights[j]
          invariant changed ==> was.rights != a.rights
        {
          if was.rights[i] != a.rights[i] {
            changed := true;
          }
          i := i + 1;
        }
        assert !changed ==> was.rights == a.rights;
      }
    }

    /** Additions and updates. */
    method UpsertListed(known: map<Key, AdminState>, group: int, list: seq<Admin>)
      modifies this
      ensures admins == Upserts(old(admins), group, list)
      ensures hist == old(hist) + ListEvents(known, group, list)
    {
      for i := 0 to |list|
        invariant admins == Upserts(old(admins), group, list[..i])
        invariant hist == old(hist) + ListEvents(known, group, list[..i])
      {
        var a := list[i];
        assert list[..i + 1][..i] == list[..i];
        var isNew := (group, a.userId) !in known;
        var changed := false;
        if !isNew {
          changed := HasChanged(known[(group, a.userId)], a);
        }
        admins := admins[(group, a.userId) := RowOf(a)];
        if isNew || changed {
          hist := hist + [Event(group, a.userId, if isNew then Added else Updated, StateOf(a))];
        }
      }
      assert list[..|list|] == list;
    }

    /** Removals: stored admins no longer present. */
    method RemoveGone(known: map<Key, AdminState>, listed: set<Key>) returns (ghost order: seq<Key>)
      modifies this
      ensures DiffLog.Lists(order, known.Keys - listed)
      ensures forall k <- order :: k in known
      ensures admins == old(admins) - (known.Keys - listed)
      ensures hist == old(hist) + RemovalEvents(known, order)
    {
      var todo := known.Keys;
      ghost var gone: set<Key> := {};
      order := [];
      while todo != {}
        invariant todo <= known.Keys
        invariant gone == known.Keys - todo - listed
        invariant DiffLog.Lists(order, gone)
        invariant forall k <- order :: k in known
        invariant admins == old(admins) - gone
        invariant hist == old(hist) + RemovalEvents(known, order)
        decreases todo
      {
        var k :| k in todo;
        todo := todo - {k};
        if k !in listed {
          hist := hist + [Event(k.0, k.1, Removed, known[k])];
          admins := admins - {k};
          DiffLog.ListsSnoc(order, gone, k);
          gone := gone + {k};
          order := order + [k];
        }
      }
    }
  }
}
