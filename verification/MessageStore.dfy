/**
 What every run of a message table keeps: the keys between its three tables, the append-only parts,
 and the independence of content, file and reply columns.
 */
module MessageStore {
  import opened Common
  import opened Messages

  // ---------------------------------------------------------------- references between the tables

  function Ids<S>(s: Store<S>): set<nat> {
    set k | k in s.rows :: s.rows[k].id
  }

  ghost predicate UniqueIds<S>(rows: map<Key, Row<S>>, nextId: nat) {
    && (forall k <- rows :: rows[k].id < nextId)
    && (forall j, k :: j in rows && k in rows && j != k ==> rows[j].id != rows[k].id)
  }

  /** Ids are unique, edits and forward infos belong to messages, forwarded messages have their info. */
  ghost predicate Sound<S>(s: Store<S>) {
    && UniqueIds(s.rows, s.nextId)
    && (forall i :: 0 <= i < |s.edits| ==> s.edits[i].row in Ids(s))
    && s.forwards.Keys <= Ids(s)
    && (forall k <- s.rows :: s.rows[k].forwarded ==> s.rows[k].id in s.forwards)
  }

  /** Nothing but row k changes, and its id only when it is new. */
  lemma IdsAfter<S>(s: Store<S>, s': Store<S>, k: Key)
    requires k in s'.rows && s'.rows == s.rows[k := s'.rows[k]]
    requires k in s.rows ==> s'.rows[k].id == s.rows[k].id
    ensures Ids(s') == Ids(s) + {s'.rows[k].id}
  {
    forall id
      ensures id in Ids(s') <==> id in Ids(s) + {s'.rows[k].id}
    {
      if id in Ids(s) {
        var j :| j in s.rows && s.rows[j].id == id;
        assert j in s'.rows && s'.rows[j].id == id;
      }
    }
  }

  lemma UniqueIdsAfter<S>(rows: map<Key, Row<S>>, nextId: nat, nextId': nat, k: Key, row: Row<S>)
    requires UniqueIds(rows, nextId) && nextId <= nextId'
    requires if k in rows then row.id == rows[k].id else row.id == nextId < nextId'
    ensures UniqueIds(rows[k := row], nextId')
  {
  }

  /** A changed row k keeps the references if the new edits and forward infos are its own. */
  lemma RowChangeKeepsSound<S>(s: Store<S>, s': Store<S>, k: Key)
    requires Sound(s) && k in s'.rows && s'.rows == s.rows[k := s'.rows[k]] && s.nextId <= s'.nextId
    requires if k in s.rows then s'.rows[k].id == s.rows[k].id else s'.rows[k].id == s.nextId < s'.nextId
    requires s.edits <= s'.edits && forall i :: |s.edits| <= i < |s'.edits| ==> s'.edits[i].row == s'.rows[k].id
    requires s.forwards.Keys <= s'.forwards.Keys <= s.forwards.Keys + {s'.rows[k].id}
    requires s'.rows[k].forwarded ==> s'.rows[k].id in s'.forwards
    ensures Sound(s')
  {
    IdsAfter(s, s', k);
    UniqueIdsAfter(s.rows, s.nextId, s'.nextId, k, s'.rows[k]);
    forall i | 0 <= i < |s'.edits|
      ensures s'.edits[i].row in Ids(s')
    {
      if i < |s.edits| {
        assert s'.edits[i] == s.edits[i];
      }
    }
    assert forall j <- s.rows :: j != k ==> s'.rows[j] == s.rows[j];
  }

  lemma StepKeepsSound<S>(s: Store<S>, e: Event<S>)
    requires Sound(s)
    ensures Sound(Step(s, e))
  {
    if e.Upsert? {
      if e.m.key in Step(s, e).rows {
        RowChangeKeepsSound(s, Step(s, e), e.m.key);
      }
    } else if e.key in s.rows {
      RowChangeKeepsSound(s, Step(s, e), e.key);
    }
  }

  /** On any run: is_forwarded implies a forward info, and no edit or forward info is an orphan. */
  lemma {:induction false} SoundOnAnyRun<S>(events: seq<Event<S>>)
    ensures Sound(Run(Empty(), events))
  {
    if events == [] {
      assert Sound(Run<S>(Empty(), []));
    } else {
      SoundOnAnyRun(events[..|events| - 1]);
      StepKeepsSound(Run(Empty(), events[..|events| - 1]), events[|events| - 1]);
    }
  }

  // ---------------------------------------------------------------- what only grows

  /** Messages stay with their ids, edits are only appended, forward infos never change. */
  ghost predicate Extends<S>(s: Store<S>, s': Store<S>) {
    && (forall k <- s.rows :: k in s'.rows && s'.rows[k].id == s.rows[k].id)
    && s.edits <= s'.edits
    && (forall id <- s.forwards :: id in s'.forwards && s'.forwards[id] == s.forwards[id])
  }

  lemma StepExtends<S>(s: Store<S>, e: Event<S>)
    ensures Extends(s, Step(s, e))
  {
  }

  lemma {:induction false} RunExtends<S>(s: Store<S>, events: seq<Event<S>>)
    ensures Extends(s, Run(s, events))
  {
    if events != [] {
      RunExtends(s, events[..|events| - 1]);
      StepExtends(Run(s, events[..|events| - 1]), events[|events| - 1]);
    }
  }

  /** An event about one message leaves every other message, its edits and its forward info alone. */
  lemma OtherMessagesUntouched<S>(s: Store<S>, e: Event<S>, k: Key)
    requires Sound(s) && k in s.rows && k != if e.Upsert? then e.m.key else e.key
    ensures var s' := Step(s, e);
      && k in s'.rows && s'.rows[k] == s.rows[k]
      && (forall i :: |s.edits| <= i < |s'.edits| ==> s'.edits[i].row != s.rows[k].id)
      && (s.rows[k].id in s'.forwards <==> s.rows[k].id in s.forwards)
  {
  }

  // ---------------------------------------------------------------- confluence

  /** A row without the columns that links set. */
  function Bare<S>(row: Row<S>): Row<S> {
    row.(file := None, replyTo := None, replyId := None)
  }

  ghost predicate SameContents<S>(s: Store<S>, t: Store<S>) {
    && s.nextId == t.nextId && s.forwards == t.forwards && s.rows.Keys == t.rows.Keys
    && forall k <- s.rows :: Bare(s.rows[k]) == Bare(t.rows[k])
  }

  function UpsertsIn<S>(events: seq<Event<S>>): seq<Event<S>> {
    if events == [] then []
    else
      var e := events[|events| - 1];
      UpsertsIn(events[..|events| - 1]) + if e.Upsert? then [e] else []
  }

  function LinksIn<S>(events: seq<Event<S>>): seq<Event<S>> {
    if events == [] then []
    else
      var e := events[|events| - 1];
      LinksIn(events[..|events| - 1]) + if e.Upsert? then [] else [e]
  }

  lemma {:induction false} ContentsIgnoreLinks<S>(s: Store<S>, events: seq<Event<S>>)
    ensures SameContents(Run(s, events), Run(s, UpsertsIn(events)))
  {
    if events != [] {
      var front, e := events[..|events| - 1], events[|events| - 1];
      ContentsIgnoreLinks(s, front);
      if e.Upsert? {
        assert UpsertsIn(events) == UpsertsIn(front) + [e];
        assert UpsertsIn(events)[..|UpsertsIn(front)|] == UpsertsIn(front);
        UpsertSameContents(Run(s, front), Run(s, UpsertsIn(front)), e.m);
      } else {
        assert UpsertsIn(events) == UpsertsIn(front);
      }
    }
  }

  lemma UpsertSameContents<S>(s: Store<S>, t: Store<S>, m: Message<S>)
    requires SameContents(s, t)
    ensures SameContents(Upserted(s, m), Upserted(t, m))
  {
    if m.key in s.rows {
      assert Bare(s.rows[m.key]) == Bare(t.rows[m.key]);
    }
  }

  /** The last value that the links in order gave to the file column of k, or what it was before. */
  function LastFile<S>(events: seq<Event<S>>, k: Key, was: Option<int>): Option<int> {
    if events == [] then was
    else
      var e := events[|events| - 1];
      if e.SetFile? && e.key == k then Some(e.file) else LastFile(events[..|events| - 1], k, was)
  }

  function LastReply<S>(events: seq<Event<S>>, k: Key, was: Option<Key>): Option<Key> {
    if events == [] then was
    else
      var e := events[|events| - 1];
      if e.SetReply? && e.key == k then Some(e.target) else LastReply(events[..|events| - 1], k, was)
  }

  lemma LinksInSnoc<S>(events: seq<Event<S>>)
    requires events != []
    ensures var front, e := events[..|events| - 1], events[|events| - 1];
      if e.Upsert? then LinksIn(events) == LinksIn(front)
      else LinksIn(events) == LinksIn(front) + [e] && LinksIn(events)[..|LinksIn(events)| - 1] == LinksIn(front)
  {
  }

  lemma {:induction false} LastFileInLinks<S>(events: seq<Event<S>>, k: Key, was: Option<int>)
    ensures LastFile(LinksIn(events), k, was) == LastFile(events, k, was)
  {
    if events != [] {
      LinksInSnoc(events);
      LastFileInLinks(events[..|events| - 1], k, was);
    }
  }

  lemma {:induction false} LastReplyInLinks<S>(events: seq<Event<S>>, k: Key, was: Option<Key>)
    ensures LastReply(LinksIn(events), k, was) == LastReply(events, k, was)
  {
    if events != [] {
      LinksInSnoc(events);
      LastReplyInLinks(events[..|events| - 1], k, was);
    }
  }

  /**
   The id that the last reply link of k stored: that of its target if the target had a row when the link
   ran, and none otherwise.
   */
  function LastReplyId<S(==)>(s: Store<S>, events: seq<Event<S>>, k: Key, was: Option<nat>): Option<nat> {
    if events == [] then was
    else
      var front, e := events[..|events| - 1], events[|events| - 1];
      if e.SetReply? && e.key == k then
        var rows := Run(s, front).rows;
        if e.target in rows then Some(rows[e.target].id) else None
      else LastReplyId(s, front, k, was)
  }

  /** From the first insert on, file and all reply columns are those of the last link, whatever is upserted. */
  lemma {:induction false} LinksSurviveUpserts<S>(s: Store<S>, events: seq<Event<S>>, k: Key)
    requires k in s.rows
    ensures var row := s.rows[k]; var s' := Run(s, events);
      && k in s'.rows
      && s'.rows[k].file == LastFile(events, k, row.file)
      && s'.rows[k].replyTo == LastReply(events, k, row.replyTo)
      && s'.rows[k].replyId == LastReplyId(s, events, k, row.replyId)
  {
    if events != [] {
      LinksSurviveUpserts(s, events[..|events| - 1], k);
    }
  }

  /** Two interleavings of the same upserts and the same links. */
  ghost predicate SameParts<S>(a: seq<Event<S>>, b: seq<Event<S>>) {
    UpsertsIn(a) == UpsertsIn(b) && LinksIn(a) == LinksIn(b)
  }

  lemma SamePartsContents<S>(s: Store<S>, a: seq<Event<S>>, b: seq<Event<S>>)
    requires SameParts(a, b)
    ensures SameContents(Run(s, a), Run(s, b))
  {
    ContentsIgnoreLinks(s, a);
    ContentsIgnoreLinks(s, b);
  }

  /** Every column but the resolved id is the same in the end; the file is the last one linked. */
  lemma ConfluentButId<S>(s: Store<S>, a: seq<Event<S>>, b: seq<Event<S>>, k: Key)
    requires k in s.rows && SameParts(a, b)
    ensures k in Run(s, a).rows && k in Run(s, b).rows
    ensures Run(s, a).rows[k].(replyId := None) == Run(s, b).rows[k].(replyId := None)
    ensures Run(s, a).rows[k].file == LastFile(LinksIn(a), k, s.rows[k].file)
    ensures Run(s, a).forwards == Run(s, b).forwards
  {
    LinksSurviveUpserts(s, a, k);
    LinksSurviveUpserts(s, b, k);
    LastFileInLinks(a, k, s.rows[k].file);
    LastFileInLinks(b, k, s.rows[k].file);
    LastReplyInLinks(a, k, s.rows[k].replyTo);
    LastReplyInLinks(b, k, s.rows[k].replyTo);
    SamePartsContents(s, a, b);
    assert Bare(Run(s, a).rows[k]) == Bare(Run(s, b).rows[k]);
  }

  // ---------------------------------------------------------------- when the resolved id agrees

  /** How long the run is before its last reply link of k, or None if it has none. */
  function LastReplyAt<S>(events: seq<Event<S>>, k: Key): (i: Option<nat>)
    ensures i.Some? ==> i.value < |events| && events[i.value].SetReply? && events[i.value].key == k
    ensures i.None? ==> forall j :: 0 <= j < |events| ==> !(events[j].SetReply? && events[j].key == k)
  {
    if events == [] then None
    else
      var e := events[|events| - 1];
      if e.SetReply? && e.key == k then Some(|events| - 1) else LastReplyAt(events[..|events| - 1], k)
  }

  /** Whether the target of the last reply link of k had a row when the link ran. */
  predicate Resolves<S(==)>(s: Store<S>, events: seq<Event<S>>, k: Key) {
    var i := LastReplyAt(events, k);
    i.Some? && events[i.value].target in Run(s, events[..i.value]).rows
  }

  lemma {:induction false} LastReplyIdIs<S>(s: Store<S>, events: seq<Event<S>>, k: Key, was: Option<nat>)
    ensures LastReplyAt(events, k).None? ==> LastReplyId(s, events, k, was) == was
    ensures LastReplyAt(events, k).Some? ==>
      var i := LastReplyAt(events, k).value; var rows := Run(s, events[..i]).rows;
      LastReplyId(s, events, k, was) ==
        if events[i].target in rows then Some(rows[events[i].target].id) else None
  {
    if events != [] {
      var front, e := events[..|events| - 1], events[|events| - 1];
      if !(e.SetReply? && e.key == k) {
        LastReplyIdIs(s, front, k, was);
        if LastReplyAt(front, k).Some? {
          assert front[..LastReplyAt(front, k).value] == events[..LastReplyAt(front, k).value];
        }
      }
    }
  }

  lemma {:induction false} LastReplyNamed<S>(events: seq<Event<S>>, k: Key, was: Option<Key>)
    ensures LastReply(events, k, was) ==
      if LastReplyAt(events, k).Some? then Some(events[LastReplyAt(events, k).value].target) else was
  {
    if events != [] {
      LastReplyNamed(events[..|events| - 1], k, was);
    }
  }

  lemma {:induction false} LastReplyAtInLinks<S>(events: seq<Event<S>>, k: Key)
    ensures LastReplyAt(LinksIn(events), k).Some? <==> LastReplyAt(events, k).Some?
  {
    if events != [] {
      LinksInSnoc(events);
      LastReplyAtInLinks(events[..|events| - 1], k);
    }
  }

  /** A row found on the way has the same id at the end. */
  lemma {:induction false} IdStays<S>(s: Store<S>, events: seq<Event<S>>, i: nat, k: Key)
    requires i <= |events| && k in Run(s, events[..i]).rows
    ensures k in Run(s, events).rows && Run(s, events).rows[k].id == Run(s, events[..i]).rows[k].id
  {
    if i == |events| {
      assert events[..i] == events;
    } else {
      var front := events[..|events| - 1];
      assert front[..i] == events[..i];
      IdStays(s, front, i, k);
      StepExtends(Run(s, front), events[|events| - 1]);
    }
  }

  /** The id stored by the last reply link of k is its target's, exactly if the target resolves. */
  lemma ResolvedId<S>(s: Store<S>, events: seq<Event<S>>, k: Key)
    requires k in s.rows && LastReplyAt(events, k).Some?
    ensures var target := events[LastReplyAt(events, k).value].target; var s' := Run(s, events);
      && k in s'.rows && s'.rows[k].replyTo == Some(target)
      && (Resolves(s, events, k) ==> target in s'.rows && s'.rows[k].replyId == Some(s'.rows[target].id))
      && (!Resolves(s, events, k) ==> s'.rows[k].replyId == None)
  {
    var i := LastReplyAt(events, k).value;
    LinksSurviveUpserts(s, events, k);
    LastReplyIdIs(s, events, k, s.rows[k].replyId);
    LastReplyNamed(events, k, s.rows[k].replyTo);
    if Resolves(s, events, k) {
      IdStays(s, events, i, events[i].target);
    }
  }

  /**
   Content upserts and links are confluent: two interleavings of the same upserts and the same links,
   after the first insert, end in the same row if no reply of that row is linked, or if the target of its
   last reply link had a row when the link ran in both interleavings or in neither; and only then.
   */
  lemma Confluent<S>(s: Store<S>, a: seq<Event<S>>, b: seq<Event<S>>, k: Key)
    requires k in s.rows && SameParts(a, b)
    ensures k in Run(s, a).rows && k in Run(s, b).rows
    ensures Run(s, a).rows[k] == Run(s, b).rows[k] <==>
      LastReplyAt(a, k).None? || (Resolves(s, a, k) <==> Resolves(s, b, k))
    ensures Run(s, a).rows[k].file == LastFile(LinksIn(a), k, s.rows[k].file)
  {
    ConfluentButId(s, a, b, k);
    LastReplyAtInLinks(a, k);
    LastReplyAtInLinks(b, k);
    if LastReplyAt(a, k).None? {
      LinksSurviveUpserts(s, a, k);
      LinksSurviveUpserts(s, b, k);
      LastReplyIdIs(s, a, k, s.rows[k].replyId);
      LastReplyIdIs(s, b, k, s.rows[k].replyId);
      SameRow(Run(s, a).rows[k], Run(s, b).rows[k]);
    } else {
      ResolvedId(s, a, k);
      ResolvedId(s, b, k);
      SamePartsContents(s, a, b);
      SameId(Run(s, a), Run(s, b), a[LastReplyAt(a, k).value].target);
      SameRow(Run(s, a).rows[k], Run(s, b).rows[k]);
    }
  }

  /** Two interleavings that differ: a reply is linked before or after the replied message is first saved. */
  lemma LinkOrderMatters<S>(s: Store<S>, k: Key, m: Message<S>)
    requires k in s.rows && m.key !in s.rows && !m.deleted
    ensures var a, b := [Upsert(m), SetReply(k, m.key)], [SetReply(k, m.key), Upsert(m)];
      && SameParts(a, b) && k in Run(s, a).rows && k in Run(s, b).rows
      && Run(s, a).rows[k].replyId == Some(s.nextId) && Run(s, b).rows[k].replyId == None
  {
    var link: Event<S>, save := SetReply(k, m.key), Upsert(m);
    TwoEvents(s, save, link);
    TwoEvents(s, link, save);
  }

  lemma {:induction false} TwoEvents<S>(s: Store<S>, e: Event<S>, f: Event<S>)
    ensures Run(s, [e, f]) == Step(Step(s, e), f)
    ensures UpsertsIn([e, f]) == (if e.Upsert? then [e] else []) + if f.Upsert? then [f] else []
    ensures LinksIn([e, f]) == (if e.Upsert? then [] else [e]) + if f.Upsert? then [] else [f]
  {
    assert [e, f][..1] == [e] && [e][..0] == [];
    assert Run(s, [e]) == Step(Run(s, []), e);
    assert UpsertsIn([e]) == UpsertsIn([]) + if e.Upsert? then [e] else [];
    assert LinksIn([e]) == LinksIn([]) + if e.Upsert? then [] else [e];
  }

  lemma SameRow<S>(x: Row<S>, y: Row<S>)
    requires x.(replyId := None) == y.(replyId := None)
    ensures x == y <==> x.replyId == y.replyId
  {
  }

  lemma SameId<S>(s: Store<S>, t: Store<S>, k: Key)
    requires SameContents(s, t)
    ensures k in s.rows <==> k in t.rows
    ensures k in s.rows ==> s.rows[k].id == t.rows[k].id
  {
    if k in s.rows {
      assert Bare(s.rows[k]).id == Bare(t.rows[k]).id;
    }
  }
}
