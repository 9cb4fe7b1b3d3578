/**
 History of plain attributes: a live column per attribute and an append-only log of its earlier values
 (users with the user_hist_* tables, groups with the group_hist_* tables).

 Users and groups follow one scheme: two attributes written by every upsert (name and phone number,
 title and description), a photo linked later, and, for users, a bio fetched separately.
 */
module Profiles {
  import opened Common

  /** One attribute of all entities: the live values and the log shared by the entities. */
  datatype Column<V> = Column(live: map<int, V>, log: seq<(int, V)>)

  /** What is logged when v arrives: the very first value, later the value it replaces. */
  function Entry<V(==)>(c: Column<V>, id: int, v: V): seq<(int, V)> {
    if id !in c.live then [(id, v)]
    else if c.live[id] != v then [(id, c.live[id])]
    else []
  }

  function Noted<V(==)>(c: Column<V>, id: int, v: V): Column<V> {
    Column(c.live[id := v], c.log + Entry(c, id, v))
  }

  /** A column without a first entry: before the first value arrives it counts as `unset`. */
  function EntryFrom<V(==)>(c: Column<V>, id: int, unset: V, v: V): seq<(int, V)> {
    var was := if id in c.live then c.live[id] else unset;
    if was != v then [(id, was)] else []
  }

  function NotedFrom<V(==)>(c: Column<V>, id: int, unset: V, v: V): Column<V> {
    Column(c.live[id := v], c.log + EntryFrom(c, id, unset, v))
  }

  // ---------------------------------------------------------------- the machine

  datatype Store<A> = Store(first: Column<A>, second: Column<string>, photo: Column<int>, bio: Column<string>)

  datatype Event<A> =
    | Upsert(id: int, first: A, second: string)   // upsertUser, upsertGroup
    | SetPhoto(id: int, file: int)                // setUserProfilePhoto, setGroupPhoto
    | FullInfo(id: int, bio: string)              // upsertUserFullInfo

  /** Photo and bio of an entity that is not stored are dropped. */
  function Step<A(==)>(s: Store<A>, e: Event<A>): Store<A> {
    match e
    case Upsert(id, first, second) => s.(first := Noted(s.first, id, first), second := Noted(s.second, id, second))
    case SetPhoto(id, file) => if id in s.first.live then s.(photo := Noted(s.photo, id, file)) else s
    case FullInfo(id, bio) => if id in s.first.live then s.(bio := NotedFrom(s.bio, id, "", bio)) else s
  }

  function Empty<A>(): Store<A> {
    Store(Column(map[], []), Column(map[], []), Column(map[], []), Column(map[], []))
  }

  function Run<A(==)>(events: seq<Event<A>>): Store<A> {
    if events == [] then Empty() else Step(Run(events[..|events| - 1]), events[|events| - 1])
  }

  // ---------------------------------------------------------------- what a run observes

  /** The entity has been upserted. */
  predicate Stored<A>(events: seq<Event<A>>, id: int) {
    exists i :: 0 <= i < |events| && events[i].Upsert? && events[i].id == id
  }

  function Firsts<A>(events: seq<Event<A>>, id: int): seq<A> {
    if events == [] then []
    else
      var e := events[|events| - 1];
      Firsts(events[..|events| - 1], id) + if e.Upsert? && e.id == id then [e.first] else []
  }

  function Seconds<A>(events: seq<Event<A>>, id: int): seq<string> {
    if events == [] then []
    else
      var e := events[|events| - 1];
      Seconds(events[..|events| - 1], id) + if e.Upsert? && e.id == id then [e.second] else []
  }

  /** Photos and bios count from the first upsert on. */
  function Photos<A>(events: seq<Event<A>>, id: int): seq<int> {
    if events == [] then []
    else
      var front, e := events[..|events| - 1], events[|events| - 1];
      Photos(front, id) + if e.SetPhoto? && e.id == id && Stored(front, id) then [e.file] else []
  }

  function Bios<A>(events: seq<Event<A>>, id: int): seq<string> {
    if events == [] then []
    else
      var front, e := events[..|events| - 1], events[|events| - 1];
      Bios(front, id) + if e.FullInfo? && e.id == id && Stored(front, id) then [e.bio] else []
  }

  // ---------------------------------------------------------------- one column

  function HistoryOf<V>(log: seq<(int, V)>, id: int): seq<V> {
    if log == [] then []
    else
      var e := log[|log| - 1];
      HistoryOf(log[..|log| - 1], id) + if e.0 == id then [e.1] else []
  }

  lemma HistorySnoc<V>(log: seq<(int, V)>, more: seq<(int, V)>, id: int)
    requires |more| <= 1
    ensures HistoryOf(log + more, id) == HistoryOf(log, id) + if more != [] && more[0].0 == id then [more[0].1] else []
  {
    if more != [] {
      assert (log + more)[..|log|] == log;
    } else {
      assert log + more == log;
    }
  }

  /**
   The log starts with the first value; after that entry, the log followed by the live value is what
   was observed without consecutive repeats.
   */
  ghost predicate Lossless<V>(c: Column<V>, id: int, observed: seq<V>) {
    var h := HistoryOf(c.log, id);
    if observed == [] then id !in c.live && h == []
    else id in c.live && h != [] && h[0] == observed[0] && h[1..] + [c.live[id]] == Dedup(observed)
  }

  /** The log followed by the live value is what was observed after `unset`. */
  ghost predicate LosslessFrom<V>(c: Column<V>, id: int, unset: V, observed: seq<V>) {
    && (id in c.live <==> observed != [])
    && HistoryOf(c.log, id) + [if id in c.live then c.live[id] else unset] == Dedup([unset] + observed)
  }

  /** The history of an entity that has a value, after one more. */
  lemma NotedHistory<V>(c: Column<V>, id: int, v: V)
    requires id in c.live
    ensures HistoryOf(Noted(c, id, v).log, id) == HistoryOf(c.log, id) + if c.live[id] != v then [c.live[id]] else []
  {
    HistorySnoc(c.log, Entry(c, id, v), id);
  }

  lemma FirstNoted<V>(c: Column<V>, id: int, v: V)
    requires Lossless(c, id, [])
    ensures Lossless(Noted(c, id, v), id, [v])
  {
    HistorySnoc(c.log, Entry(c, id, v), id);
    assert HistoryOf(Noted(c, id, v).log, id) == [v];
    assert Dedup([v]) == [v] == [v][1..] + [v];
  }

  lemma NotedLossless<V>(c: Column<V>, id: int, v: V, observed: seq<V>)
    requires Lossless(c, id, observed)
    ensures Lossless(Noted(c, id, v), id, observed + [v])
  {
    if observed == [] {
      FirstNoted(c, id, v);
      assert observed + [v] == [v];
    } else {
      var h, live := HistoryOf(c.log, id), c.live[id];
      NotedHistory(c, id, v);
      LogSnoc(h[1..], live, observed, v);
      HeadKept(h, live, v);
    }
  }

  lemma HeadKept<V>(h: seq<V>, live: V, v: V)
    requires h != []
    ensures var h' := h + if live != v then [live] else [];
      h'[0] == h[0] && h'[1..] == if live != v then h[1..] + [live] else h[1..]
  {
  }

  lemma OthersLossless<V>(c: Column<V>, other: int, v: V, id: int, observed: seq<V>)
    requires Lossless(c, id, observed) && other != id
    ensures Lossless(Noted(c, other, v), id, observed)
  {
    HistorySnoc(c.log, Entry(c, other, v), id);
  }

  /** One more value: the live one is logged exactly when it is replaced by another. */
  lemma LogSnoc<V>(log: seq<V>, live: V, observed: seq<V>, v: V)
    requires observed != [] && log + [live] == Dedup(observed)
    ensures (if live != v then log + [live] else log) + [v] == Dedup(observed + [v])
  {
    DedupSnoc(observed, v);
    assert (log + [live])[|log|] == live;
  }

  lemma NotedFromHistory<V>(c: Column<V>, id: int, unset: V, v: V)
    ensures var live := if id in c.live then c.live[id] else unset;
      HistoryOf(NotedFrom(c, id, unset, v).log, id)
      == if live != v then HistoryOf(c.log, id) + [live] else HistoryOf(c.log, id)
  {
    HistorySnoc(c.log, EntryFrom(c, id, unset, v), id);
  }

  lemma NotedFromLossless<V>(c: Column<V>, id: int, unset: V, v: V, observed: seq<V>)
    requires LosslessFrom(c, id, unset, observed)
    ensures LosslessFrom(NotedFrom(c, id, unset, v), id, unset, observed + [v])
  {
    NotedFromHistory(c, id, unset, v);
    LogSnoc(HistoryOf(c.log, id), if id in c.live then c.live[id] else unset, [unset] + observed, v);
    assert [unset] + (observed + [v]) == [unset] + observed + [v];
  }

  lemma OthersLosslessFrom<V>(c: Column<V>, other: int, unset: V, v: V, id: int, observed: seq<V>)
    requires LosslessFrom(c, id, unset, observed) && other != id
    ensures LosslessFrom(NotedFrom(c, other, unset, v), id, unset, observed)
  {
    HistorySnoc(c.log, EntryFrom(c, other, unset, v), id);
  }

  // ---------------------------------------------------------------- whole runs

  lemma StoredSnoc<A>(events: seq<Event<A>>, id: int)
    requires events != []
    ensures var front, e := events[..|events| - 1], events[|events| - 1];
      Stored(events, id) <==> Stored(front, id) || (e.Upsert? && e.id == id)
  {
    var front, e := events[..|events| - 1], events[|events| - 1];
    if Stored(front, id) {
      var i :| 0 <= i < |front| && front[i].Upsert? && front[i].id == id;
      assert events[i] == front[i];
    }
  }

  lemma {:induction false} StoredRows<A>(events: seq<Event<A>>, id: int)
    ensures id in Run(events).first.live <==> Stored(events, id)
  {
    if events != [] {
      StoredRows(events[..|events| - 1], id);
      StoredSnoc(events, id);
    }
  }

  /** The two attributes written by every upsert. */
  lemma {:induction false} UpsertsLossless<A>(events: seq<Event<A>>, id: int)
    ensures Lossless(Run(events).first, id, Firsts(events, id))
    ensures Lossless(Run(events).second, id, Seconds(events, id))
  {
    if events != [] {
      var front, e := events[..|events| - 1], events[|events| - 1];
      UpsertsLossless(front, id);
      var s := Run(front);
      if e.Upsert? && e.id == id {
        NotedLossless(s.first, id, e.first, Firsts(front, id));
        NotedLossless(s.second, id, e.second, Seconds(front, id));
      } else {
        assert Firsts(events, id) == Firsts(front, id) && Seconds(events, id) == Seconds(front, id);
        if e.Upsert? {
          OthersLossless(s.first, e.id, e.first, id, Firsts(front, id));
          OthersLossless(s.second, e.id, e.second, id, Seconds(front, id));
        }
      }
    }
  }

  lemma {:induction false} PhotosLossless<A>(events: seq<Event<A>>, id: int)
    ensures Lossless(Run(events).photo, id, Photos(events, id))
  {
    if events != [] {
      var front, e := events[..|events| - 1], events[|events| - 1];
      PhotosLossless(front, id);
      if e.SetPhoto? {
        StoredRows(front, e.id);
        if e.id != id {
          assert Photos(events, id) == Photos(front, id);
          OthersLossless(Run(front).photo, e.id, e.file, id, Photos(front, id));
        } else if Stored(front, id) {
          NotedLossless(Run(front).photo, id, e.file, Photos(front, id));
        } else {
          assert Photos(events, id) == Photos(front, id);
        }
      } else {
        assert Photos(events, id) == Photos(front, id);
      }
    }
  }

  lemma {:induction false} BiosLossless<A>(events: seq<Event<A>>, id: int)
    ensures LosslessFrom(Run(events).bio, id, "", Bios(events, id))
  {
    if events == [] {
      assert [""] + Bios(events, id) == [""];
      assert [""][..0] == [];
    } else {
      var front, e := events[..|events| - 1], events[|events| - 1];
      BiosLossless(front, id);
      if e.FullInfo? {
        StoredRows(front, e.id);
        if e.id != id {
          assert Bios(events, id) == Bios(front, id);
          OthersLosslessFrom(Run(front).bio, e.id, "", e.bio, id, Bios(front, id));
        } else if Stored(front, id) {
          NotedFromLossless(Run(front).bio, id, "", e.bio, Bios(front, id));
        } else {
          assert Bios(events, id) == Bios(front, id);
        }
      } else {
        assert Bios(events, id) == Bios(front, id);
      }
    }
  }

  /**
   No value of an attribute is lost, on any run, entities interleaved: for name, phone number, title,
   description and photo the log holds the first value and then, with the live value, everything
   observed; for the bio the log and the live value are what was observed after an initial "".
   */
  lemma HistoryIsLossless<A>(events: seq<Event<A>>, id: int)
    ensures Lossless(Run(events).first, id, Firsts(events, id))
    ensures Lossless(Run(events).second, id, Seconds(events, id))
    ensures Lossless(Run(events).photo, id, Photos(events, id))
    ensures LosslessFrom(Run(events).bio, id, "", Bios(events, id))
  {
    UpsertsLossless(events, id);
    PhotosLossless(events, id);
    BiosLossless(events, id);
  }
}
