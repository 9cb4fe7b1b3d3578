/**
 The username tables (user_usernames with user_hist_usernames_events, and group_usernames with
 group_hist_usernames_events): DB::syncUsernames and DB::syncGroupUsernames are the same procedure
 over the two pairs of tables, so one class models both.

 Names are canonical keys, as the UNIQUE key of the table compares them.
 */
module Usernames {
  import opened Common
  import DiffLog

  datatype Kind = Active | Disabled | Collectible

  /** The row of one username; owner is None once the username has been released. */
  datatype Row = Row(owner: Option<int>, kind: Kind, position: nat)

  /** An owned username as the history describes it. */
  datatype Entry = Entry(owner: int, kind: Kind, position: nat)

  datatype Action = Added | KindChanged | Reordered | Removed

  /** A row of the event table; entry is the state after the change, None when removed. */
  datatype Event = Event(owner: int, name: string, action: Action, entry: Option<Entry>)

  type Table = map<string, Row>
  type Listing = seq<(string, Entry)>

  // ---------------------------------------------------------------- specification

  /** The usernames an owner holds: the old_map of the source. */
  function Held(rows: Table, owner: int): map<string, Entry> {
    map n | n in rows && rows[n].owner == Some(owner) :: Entry(owner, rows[n].kind, rows[n].position)
  }

  /** Every owned username, whoever owns it. */
  function Owned(rows: Table): map<string, Entry> {
    map n | n in rows && rows[n].owner.Some? :: Entry(rows[n].owner.value, rows[n].kind, rows[n].position)
  }

  function Collect(owner: int, names: seq<string>, kind: Kind): Listing {
    seq(|names|, i requires 0 <= i < |names| => (names[i], Entry(owner, kind, i)))
  }

  predicate OwnedBy(list: Listing, owner: int) {
    forall i :: 0 <= i < |list| ==> list[i].1.owner == owner
  }

  /** The new_list of the source: the three lists one after the other. */
  function ListingOf(owner: int, active: seq<string>, disabled: seq<string>, collectible: seq<string>): (list: Listing)
    ensures OwnedBy(list, owner)
  {
    Collect(owner, active, Active) + Collect(owner, disabled, Disabled) + Collect(owner, collectible, Collectible)
  }

  /** The event for one listed username, if it differs from what the owner held. */
  function EventFor(held: map<string, Entry>, name: string, e: Entry): seq<Event> {
    if name !in held then [Event(e.owner, name, Added, Some(e))]
    else if held[name].kind != e.kind then [Event(e.owner, name, KindChanged, Some(e))]
    else if held[name].position != e.position then [Event(e.owner, name, Reordered, Some(e))]
    else []
  }

  function ListEvents(held: map<string, Entry>, list: Listing): seq<Event> {
    if list == [] then []
    else
      var (n, e) := list[|list| - 1];
      ListEvents(held, list[..|list| - 1]) + EventFor(held, n, e)
  }

  function RemovalEvents(owner: int, order: seq<string>): seq<Event> {
    seq(|order|, i requires 0 <= i < |order| => Event(owner, order[i], Removed, None))
  }

  /** Released usernames keep their kind and position. */
  function Release(rows: Table, owner: int, names: set<string>): Table {
    map n | n in rows :: if n in names && rows[n].owner == Some(owner) then rows[n].(owner := None) else rows[n]
  }

  /** Upserting the list in order. */
  function Upserts(rows: Table, list: Listing): Table {
    if list == [] then rows
    else
      var (n, e) := list[|list| - 1];
      Upserts(rows, list[..|list| - 1])[n := Row(Some(e.owner), e.kind, e.position)]
  }

  /** The table after a sync, computed incrementally as the source does. */
  function Synced(rows: Table, owner: int, list: Listing): Table {
    Upserts(Release(rows, owner, Held(rows, owner).Keys - DiffLog.Keys(list)), list)
  }

  /** UPDATE ... SET user_id = NULL WHERE user_id = ? AND username = ?. */
  function ReleaseOne(rows: Table, owner: int, name: string): Table {
    if name in rows && rows[name].owner == Some(owner) then rows[name := rows[name].(owner := None)] else rows
  }

  lemma ReleaseOneMore(rows: Table, owner: int, names: set<string>, name: string)
    ensures ReleaseOne(Release(rows, owner, names), owner, name) == Release(rows, owner, names + {name})
  {
  }

  lemma RemovalSnoc(owner: int, order: seq<string>, name: string)
    ensures RemovalEvents(owner, order + [name]) == RemovalEvents(owner, order) + [Event(owner, name, Removed, None)]
  {
  }

  // ---------------------------------------------------------------- the procedure

  class UsernameTable {
    var rows: Table
    var events: seq<Event>

    constructor ()
      ensures rows == map[] && events == []
    {
      rows := map[];
      events := [];
    }

    /** syncUsernames / syncGroupUsernames; `order` is the iteration order of old_map. */
    method Sync(owner: int, active: seq<string>, disabled: seq<string>, collectible: seq<string>)
      returns (ghost order: seq<string>)
      modifies this
      ensures var list := ListingOf(owner, active, disabled, collectible);
        var held := Held(old(rows), owner);
        && DiffLog.Lists(order, held.Keys - DiffLog.Keys(list))
        && rows == Synced(old(rows), owner, list)
        && events == old(events) + ListEvents(held, list) + RemovalEvents(owner, order)
    {
      var oldMap := Held(rows, owner);
      var newList, newMap := CollectLists(owner, active, disabled, collectible);
      LogListed(owner, oldMap, newList);
      order := ReleaseGone(owner, oldMap, newMap.Keys);
      UpsertListed(owner, newList);
    }

    /** Additions, kind changes and reorders. */
    method LogListed(owner: int, oldMap: map<string, Entry>, newList: Listing)
      requires OwnedBy(newList, owner)
      modifies this`events
      ensures events == old(events) + ListEvents(oldMap, newList)
    {
      for i := 0 to |newList|
        invariant events == old(events) + ListEvents(oldMap, newList[..i])
      {
        var (name, ne) := newList[i];
        assert newList[..i + 1][..i] == newList[..i];
        if name !in oldMap {
          events := events + [Event(owner, name, Added, Some(ne))];
        } else if oldMap[name].kind != ne.kind {
          events := events + [Event(owner, name, KindChanged, Some(ne))];
        } else if oldMap[name].position != ne.position {
          events := events + [Event(owner, name, Reordered, Some(ne))];
        }
      }
      assert newList[..|newList|] == newList;
    }

    /** Removals: usernames the owner no longer has are released, in no particular order. */
    method ReleaseGone(owner: int, oldMap: map<string, Entry>, listed: set<string>) returns (ghost order: seq<string>)
      modifies this
      ensures DiffLog.Lists(order, oldMap.Keys - listed)
      ensures rows == Release(old(rows), owner, oldMap.Keys - listed)
      ensures events == old(events) + RemovalEvents(owner, order)
    {
      var todo := oldMap.Keys;
      ghost var gone: set<string> := {};
      order := [];
      while todo != {}
        invariant todo <= oldMap.Keys
        invariant gone == oldMap.Keys - todo - listed
        invariant DiffLog.Lists(order, gone)
        invariant rows == Release(old(rows), owner, gone)
        invariant events == old(events) + RemovalEvents(owner, order)
        decreases todo
      {
        var name :| name in todo;
        todo := todo - {name};
        if name !in listed {
          events := events + [Event(owner, name, Removed, None)];
          rows := ReleaseOne(rows, owner, name);
          DiffLog.ListsSnoc(order, gone, name);
          RemovalSnoc(owner, order, name);
          ReleaseOneMore(old(rows), owner, gone, name);
          gone := gone + {name};
          order := order + [name];
        }
      }
    }

    /** Claim, transfer, reorder: one upsert per listed username, in list order. */
    method UpsertListed(owner: int, newList: Listing)
      requires OwnedBy(newList, owner)
      modifies this`rows
      ensures rows == Upserts(old(rows), newList)
    {
      for i := 0 to |newList|
        invariant rows == Upserts(old(rows), newList[..i])
      {
        var (name, ne) := newList[i];
        assert newList[..i + 1][..i] == newList[..i];
        rows := rows[name := Row(Some(owner), ne.kind, ne.position)];
      }
      assert newList[..|newList|] == newList;
    }

    /** The collect loops: new_list keeps the list order, new_map the last entry of each name. */
    static method CollectLists(owner: int, active: seq<string>, disabled: seq<string>, collectible: seq<string>)
      returns (newList: Listing, newMap: map<string, Entry>)
      ensures newList == ListingOf(owner, active, disabled, collectible)
      ensures newMap == DiffLog.Claim(map[], newList)
      ensures newMap.Keys == DiffLog.Keys(newList)
    {
      newList, newMap := CollectOne([], map[], owner, active, Active);
      newList, newMap := CollectOne(newList, newMap, owner, disabled, Disabled);
      newList, newMap := CollectOne(newList, newMap, owner, collectible, Collectible);
      DiffLog.ClaimDomain(map[], newList);
    }

    static method CollectOne(list: Listing, m: map<string, Entry>, owner: int, names: seq<string>, kind: Kind)
      returns (newList: Listing, newMap: map<string, Entry>)
      requires m == DiffLog.Claim(map[], list)
      ensures newList == list + Collect(owner, names, kind)
      ensures newMap == DiffLog.Claim(map[], newList)
    {
      newList, newMap := list, m;
      for i := 0 to |names|
        invariant newList == list + Collect(owner, names, kind)[..i]
        invariant newMap == DiffLog.Claim(map[], newList)
      {
        ghost var before := newList;
        var e := Entry(owner, kind, i);
        newList := newList + [(names[i], e)];
        newMap := newMap[names[i] := e];
        assert newList[..|newList| - 1] == before;
      }
    }
  }
}
