/**
 What the edit table is worth: which versions of a message survive.
 */
module MessageHistory {
  import opened Common
  import opened Messages
  import opened MessageStore

  // ---------------------------------------------------------------- what a run observes of one message

  /**
   The event writes the content of message k.  The first deletion of a stored message does not, nor
   does the deletion of an unknown one; a repeated deletion does.
   */
  predicate Observes<S>(s: Store<S>, e: Event<S>, k: Key) {
    && e.Upsert? && e.m.key == k
    && (e.m.deleted ==> k in s.rows && s.rows[k].deleted)
  }

  function Observed<S(==)>(s: Store<S>, events: seq<Event<S>>, k: Key): seq<Message<S>> {
    if events == [] then []
    else
      var front, e := events[..|events| - 1], events[|events| - 1];
      Observed(s, front, k) + if Observes(Run(s, front), e, k) then [e.m] else []
  }

  function ContentsOf<S>(ms: seq<Message<S>>): seq<Content> {
    seq(|ms|, i requires 0 <= i < |ms| => ms[i].content)
  }

  function SnapshotsOf(edits: seq<Edit>, id: nat): seq<Edit> {
    if edits == [] then []
    else
      var e := edits[|edits| - 1];
      SnapshotsOf(edits[..|edits| - 1], id) + if e.row == id then [e] else []
  }

  function EditContents(edits: seq<Edit>): seq<Content> {
    seq(|edits|, i requires 0 <= i < |edits| => edits[i].content)
  }

  /** All versions of message k that the tables still hold, oldest first. */
  function Versions<S>(s: Store<S>, k: Key): seq<Content>
    requires k in s.rows
  {
    EditContents(SnapshotsOf(s.edits, s.rows[k].id)) + [s.rows[k].content]
  }

  /** Every change of the content came with a later edit date than the version before it. */
  ghost predicate Advancing<S>(ms: seq<Message<S>>) {
    forall i :: 0 < i < |ms| && ms[i].content != ms[i - 1].content ==> ms[i].editDate > ms[i - 1].editDate
  }

  /** The first forward info that was observed. */
  function FirstForward<S>(ms: seq<Message<S>>): Option<ForwardInfo> {
    if ms == [] then None
    else
      var earlier := FirstForward(ms[..|ms| - 1]);
      if earlier.Some? then earlier else ms[|ms| - 1].forward
  }

  // ---------------------------------------------------------------- invariant of one message

  /**
   But for its links and its deletion flag, the live row is what the last observation would insert; the
   forward info is the first that was observed.
   */
  ghost predicate Live<S>(s: Store<S>, k: Key, ms: seq<Message<S>>) {
    if ms == [] then k !in s.rows
    else
      && k in s.rows
      && var row, last := s.rows[k], ms[|ms| - 1];
      && Bare(row).(deleted := last.deleted) == Inserted(row.id, last)
      && (row.id in s.forwards <==> FirstForward(ms).Some?)
      && (row.id in s.forwards ==> s.forwards[row.id] == FirstForward(ms).value)
  }

  /** The versions are complete if and only if all changes advanced the edit date; else some are missing. */
  ghost predicate Kept<S>(s: Store<S>, k: Key, ms: seq<Message<S>>)
    requires ms != [] ==> k in s.rows
  {
    ms != [] ==>
      if Advancing(ms) then Versions(s, k) == Dedup(ContentsOf(ms))
      else |Versions(s, k)| < |Dedup(ContentsOf(ms))|
  }

  lemma SnapshotsSnoc(edits: seq<Edit>, more: seq<Edit>, id: nat)
    requires |more| <= 1
    ensures SnapshotsOf(edits + more, id)
         == SnapshotsOf(edits, id) + if more != [] && more[0].row == id then more else []
  {
    if more != [] {
      assert (edits + more)[..|edits|] == edits;
    } else {
      assert edits + more == edits;
    }
  }

  lemma {:induction false} NoSnapshotsYet(edits: seq<Edit>, id: nat)
    requires forall i :: 0 <= i < |edits| ==> edits[i].row != id
    ensures SnapshotsOf(edits, id) == []
  {
    if edits != [] {
      NoSnapshotsYet(edits[..|edits| - 1], id);
    }
  }

  lemma AdvancingSnoc<S>(ms: seq<Message<S>>, m: Message<S>)
    requires ms != []
    ensures Advancing(ms + [m]) <==>
      Advancing(ms) && (m.content != ms[|ms| - 1].content ==> m.editDate > ms[|ms| - 1].editDate)
  {
    var all := ms + [m];
    if Advancing(all) {
      forall i | 0 < i < |ms| && ms[i].content != ms[i - 1].content
        ensures ms[i].editDate > ms[i - 1].editDate
      {
        assert all[i] == ms[i] && all[i - 1] == ms[i - 1];
      }
      assert all[|ms|] == m && all[|ms| - 1] == ms[|ms| - 1];
    }
  }

  lemma FirstForwardSnoc<S>(ms: seq<Message<S>>, m: Message<S>)
    ensures FirstForward(ms + [m]) == if FirstForward(ms).Some? then FirstForward(ms) else m.forward
  {
    assert (ms + [m])[..|ms|] == ms;
  }

  // ---------------------------------------------------------------- one step

  function ObservedIn<S>(s: Store<S>, e: Event<S>, k: Key): seq<Message<S>> {
    if Observes(s, e, k) then [e.m] else []
  }

  lemma InsertLive<S>(s: Store<S>, m: Message<S>)
    requires Sound(s) && m.key !in s.rows && !m.deleted
    ensures Live(Upserted(s, m), m.key, [m])
  {
    assert s.nextId !in Ids(s);
    assert [m][..0] == [];
  }

  lemma RewriteLive<S>(s: Store<S>, m: Message<S>, ms: seq<Message<S>>)
    requires m.key in s.rows && Observes(s, Upsert(m), m.key) && ms != [] && Live(s, m.key, ms)
    ensures Live(Upserted(s, m), m.key, ms + [m])
  {
    var row := Rewritten(s.rows[m.key], m);
    FirstForwardSnoc(ms, m);
    assert Upserted(s, m).rows[m.key] == row;
    assert Bare(row).(deleted := m.deleted) == Inserted(row.id, m);
  }

  lemma UnobservedLive<S>(s: Store<S>, e: Event<S>, k: Key, ms: seq<Message<S>>)
    requires Sound(s) && Live(s, k, ms) && !Observes(s, e, k)
    ensures Live(Step(s, e), k, ms)
  {
    if k in s.rows {
      if k != (if e.Upsert? then e.m.key else e.key) {
        OtherMessagesUntouched(s, e, k);
        StepExtends(s, e);
      } else {
        assert Bare(Step(s, e).rows[k]).(deleted := ms[|ms| - 1].deleted) == Inserted(s.rows[k].id, ms[|ms| - 1]);
      }
    }
  }

  lemma StepKeepsLive<S>(s: Store<S>, e: Event<S>, k: Key, ms: seq<Message<S>>)
    requires Sound(s) && Live(s, k, ms)
    ensures Live(Step(s, e), k, ms + ObservedIn(s, e, k))
  {
    if !Observes(s, e, k) {
      assert ms + ObservedIn(s, e, k) == ms;
      UnobservedLive(s, e, k, ms);
    } else if ms == [] {
      assert ms + ObservedIn(s, e, k) == [e.m];
      InsertLive(s, e.m);
    } else {
      RewriteLive(s, e.m, ms);
    }
  }

  lemma FirstVersion<S>(s: Store<S>, e: Event<S>, k: Key)
    requires Sound(s) && k !in s.rows && Observes(s, e, k)
    ensures k in Step(s, e).rows && Kept(Step(s, e), k, [e.m])
  {
    NoSnapshotsYet(s.edits, s.nextId);
    assert ContentsOf([e.m]) == [e.m.content];
    assert [e.m.content][..0] == [];
  }

  lemma NextSnapshots<S>(s: Store<S>, m: Message<S>)
    requires m.key in s.rows && Observes(s, Upsert(m), m.key)
    ensures var row, s' := s.rows[m.key], Upserted(s, m);
      && s'.rows[m.key] == Rewritten(row, m)
      && SnapshotsOf(s'.edits, row.id) == SnapshotsOf(s.edits, row.id) + Snapshot(row, m)
  {
    SnapshotsSnoc(s.edits, Snapshot(s.rows[m.key], m), s.rows[m.key].id);
  }

  /** An observation appends the new content if it is an edit, and otherwise replaces the live one. */
  lemma NextVersions<S>(s: Store<S>, m: Message<S>)
    requires m.key in s.rows && Observes(s, Upsert(m), m.key)
    ensures var vs, s' := Versions(s, m.key), Upserted(s, m);
      Versions(s', m.key) == (if IsEdit(s.rows[m.key], m) then vs else vs[..|vs| - 1]) + [m.content]
  {
    var row := s.rows[m.key];
    var snaps := SnapshotsOf(s.edits, row.id);
    NextSnapshots(s, m);
    if IsEdit(row, m) {
      var edit := Edit(row.id, row.content, row.file, m.editDate);
      assert EditContents(snaps + [edit]) == EditContents(snaps) + [row.content];
    }
  }

  /** One more observed content: kept apart, replaced by an equal one, or the old one is lost. */
  lemma VersionsSnoc(vs: seq<Content>, cs: seq<Content>, c: Content, edit: bool, complete: bool)
    requires vs != [] && cs != [] && vs[|vs| - 1] == cs[|cs| - 1] && (edit ==> c != cs[|cs| - 1])
    requires if complete then vs == Dedup(cs) else |vs| < |Dedup(cs)|
    ensures var vs' := (if edit then vs else vs[..|vs| - 1]) + [c];
      if complete && (edit || c == cs[|cs| - 1]) then vs' == Dedup(cs + [c]) else |vs'| < |Dedup(cs + [c])|
  {
    DedupSnoc(cs, c);
  }

  lemma NextVersion<S>(s: Store<S>, e: Event<S>, k: Key, ms: seq<Message<S>>)
    requires ms != [] && Live(s, k, ms) && Kept(s, k, ms) && Observes(s, e, k)
    ensures k in Step(s, e).rows && Kept(Step(s, e), k, ms + [e.m])
  {
    NextVersions(s, e.m);
    AdvancingSnoc(ms, e.m);
    assert ContentsOf(ms + [e.m]) == ContentsOf(ms) + [e.m.content];
    VersionsSnoc(Versions(s, k), ContentsOf(ms), e.m.content, IsEdit(s.rows[k], e.m), Advancing(ms));
  }

  /** Events that do not observe k leave its content and its snapshots alone. */
  lemma Unobserved<S>(s: Store<S>, e: Event<S>, k: Key)
    requires Sound(s) && k in s.rows && !Observes(s, e, k)
    ensures var s' := Step(s, e);
      && k in s'.rows && s'.rows[k].content == s.rows[k].content && s'.rows[k].editDate == s.rows[k].editDate
      && SnapshotsOf(s'.edits, s'.rows[k].id) == SnapshotsOf(s.edits, s.rows[k].id)
  {
    UnobservedRow(s, e, k);
    if e.Upsert? && e.m.key in s.rows && e.m.key != k {
      OtherSnapshots(s, e.m, k);
    }
  }

  lemma UnobservedRow<S>(s: Store<S>, e: Event<S>, k: Key)
    requires k in s.rows && !Observes(s, e, k)
    ensures var s' := Step(s, e);
      && k in s'.rows && s'.rows[k].id == s.rows[k].id
      && s'.rows[k].content == s.rows[k].content && s'.rows[k].editDate == s.rows[k].editDate
    ensures !(e.Upsert? && e.m.key in s.rows && e.m.key != k) ==> Step(s, e).edits == s.edits
  {
  }

  lemma OtherSnapshots<S>(s: Store<S>, m: Message<S>, k: Key)
    requires Sound(s) && k in s.rows && m.key in s.rows && m.key != k
    ensures SnapshotsOf(Upserted(s, m).edits, s.rows[k].id) == SnapshotsOf(s.edits, s.rows[k].id)
  {
    SnapshotsSnoc(s.edits, Snapshot(s.rows[m.key], m), s.rows[k].id);
  }

  lemma StepKeepsKept<S>(s: Store<S>, e: Event<S>, k: Key, ms: seq<Message<S>>)
    requires Sound(s) && Live(s, k, ms) && Kept(s, k, ms)
    ensures (ms + ObservedIn(s, e, k) != [] ==> k in Step(s, e).rows) && Kept(Step(s, e), k, ms + ObservedIn(s, e, k))
  {
    if Observes(s, e, k) {
      if ms == [] {
        FirstVersion(s, e, k);
        assert ms + [e.m] == [e.m];
      } else {
        NextVersion(s, e, k, ms);
      }
    } else {
      assert ms + ObservedIn(s, e, k) == ms;
      if ms != [] {
        Unobserved(s, e, k);
      }
    }
  }

  // ---------------------------------------------------------------- whole runs

  lemma {:induction false} RunIsTracked<S>(events: seq<Event<S>>, k: Key)
    ensures var s, ms := Run(Empty(), events), Observed(Empty(), events, k);
      Live(s, k, ms) && Kept(s, k, ms)
  {
    if events != [] {
      var front, e := events[..|events| - 1], events[|events| - 1];
      RunIsTracked(front, k);
      SoundOnAnyRun(front);
      StepKeepsLive(Run(Empty(), front), e, k, Observed(Empty(), front, k));
      StepKeepsKept(Run(Empty(), front), e, k, Observed(Empty(), front, k));
    }
  }

  /**
   The snapshots followed by the live content are the observed contents without consecutive repeats
   if and only if every observed change of content advanced the edit date.  This holds on every run,
   file links, reply links, deletions and other messages interleaved.
   */
  lemma {:induction false} VersionsCompleteIff<S>(events: seq<Event<S>>, k: Key)
    requires Observed(Empty(), events, k) != []
    ensures var s, ms := Run(Empty(), events), Observed(Empty(), events, k);
      && k in s.rows
      && (Versions(s, k) == Dedup(ContentsOf(ms)) <==> Advancing(ms))
      && |Versions(s, k)| <= |Dedup(ContentsOf(ms))|
  {
    RunIsTracked(events, k);
  }

  /**
   The live row is the last observation, column by column.  The forward info kept beside it is the
   first one observed: is_forwarded implies the info, not the other way round.
   */
  lemma {:induction false} RowIsLastObservation<S>(events: seq<Event<S>>, k: Key)
    requires Observed(Empty(), events, k) != []
    ensures var s, ms := Run(Empty(), events), Observed(Empty(), events, k); var last := ms[|ms| - 1];
      && k in s.rows && var row := s.rows[k];
      && row.sender == last.sender && row.outgoing == last.outgoing && row.date == last.date
      && row.editDate == last.editDate && row.content == last.content && row.forwarded == last.forward.Some?
      && (s.rows[k].id in s.forwards <==> FirstForward(ms).Some?)
      && (s.rows[k].id in s.forwards ==> s.forwards[s.rows[k].id] == FirstForward(ms).value)
  {
    RunIsTracked(events, k);
  }

  /**
   The flag of a row tells whether its forward info exists exactly if no forward was followed by a last
   observation without one.
   */
  lemma FlagTellsInfoIff<S>(events: seq<Event<S>>, k: Key)
    requires Observed(Empty(), events, k) != []
    ensures var s, ms := Run(Empty(), events), Observed(Empty(), events, k);
      && k in s.rows
      && (s.rows[k].forwarded ==> s.rows[k].id in s.forwards)
      && ((s.rows[k].forwarded <==> s.rows[k].id in s.forwards)
          <==> (FirstForward(ms).Some? ==> ms[|ms| - 1].forward.Some?))
  {
    RowIsLastObservation(events, k);
    SoundOnAnyRun(events);
  }

  /** A forwarded message that is received again without its forward info: the flag falls back, the info stays. */
  lemma FlagFallsBack<S>(m: Message<S>, again: Message<S>)
    requires !m.deleted && !again.deleted && again.key == m.key && m.forward.Some? && again.forward.None?
    ensures var s := Run(Empty(), [Upsert(m), Upsert(again)]);
      m.key in s.rows && !s.rows[m.key].forwarded && s.rows[m.key].id in s.forwards
  {
    var events := [Upsert(m), Upsert(again)];
    assert events[..1] == [Upsert(m)] && [Upsert(m)][..0] == [];
    assert Run(Empty(), [Upsert(m)]) == Upserted(Empty(), m);
    assert Run(Empty(), events) == Upserted(Upserted(Empty(), m), again);
  }

  // ---------------------------------------------------------------- what the edit rows say

  /** The file linked last while message k had a row; links that come before are lost. */
  function FileLinked<S(==)>(events: seq<Event<S>>, k: Key): Option<int> {
    if events == [] then None
    else
      var front, e := events[..|events| - 1], events[|events| - 1];
      if e.SetFile? && e.key == k && k in Run(Empty(), front).rows then Some(e.file) else FileLinked(front, k)
  }

  lemma {:induction false} FileIsLast<S>(events: seq<Event<S>>, k: Key)
    ensures k in Run(Empty(), events).rows ==> Run(Empty(), events).rows[k].file == FileLinked(events, k)
    ensures k !in Run(Empty(), events).rows ==> FileLinked(events, k) == None
  {
    if events != [] {
      FileIsLast(events[..|events| - 1], k);
    }
  }

  /** The observation m is an edit of what was observed last. */
  predicate EditsLast<S>(ms: seq<Message<S>>, m: Message<S>) {
    && ms != []
    && m.editDate > ms[|ms| - 1].editDate
    && (m.content.kind != ms[|ms| - 1].content.kind || m.content.text != ms[|ms| - 1].content.text)
  }

  /** The edit that an event makes of what was observed so far, with the file linked by then. */
  function EditSeen<S(==)>(
    s: Store<S>, e: Event<S>, k: Key, ms: seq<Message<S>>, id: nat, file: Option<int>): seq<Edit>
  {
    if Observes(s, e, k) && EditsLast(ms, e.m) then [Edit(id, ms[|ms| - 1].content, file, e.m.editDate)] else []
  }

  /**
   The edits of message k: for each observation that is an edit, the content observed before it, the file
   linked by then, and the edit date it came with.
   */
  function EditsSeen<S(==)>(events: seq<Event<S>>, k: Key, id: nat): seq<Edit> {
    if events == [] then []
    else
      var front, e := events[..|events| - 1], events[|events| - 1];
      var ms := Observed(Empty(), front, k);
      EditsSeen(front, k, id) + EditSeen(Run(Empty(), front), e, k, ms, id, FileLinked(front, k))
  }

  /** On every run the edit rows of a message are exactly those, in that order. */
  lemma {:induction false} EditRowsAreEditsSeen<S>(events: seq<Event<S>>, k: Key)
    requires k in Run(Empty(), events).rows
    ensures var s := Run(Empty(), events); SnapshotsOf(s.edits, s.rows[k].id) == EditsSeen(events, k, s.rows[k].id)
  {
    var front := events[..|events| - 1];
    if k in Run(Empty(), front).rows {
      EditRowsAreEditsSeen(front, k);
      EditRowsNext(events, k);
    } else {
      EditRowsFirst(events, k);
    }
  }

  lemma {:induction false} EditRowsFirst<S>(events: seq<Event<S>>, k: Key)
    requires events != [] && k !in Run(Empty(), events[..|events| - 1]).rows && k in Run(Empty(), events).rows
    ensures var s := Run(Empty(), events); SnapshotsOf(s.edits, s.rows[k].id) == EditsSeen(events, k, s.rows[k].id)
  {
    var front, e := events[..|events| - 1], events[|events| - 1];
    RunIsTracked(front, k);
    SoundOnAnyRun(front);
    NoEditsBefore(front, k, Run(Empty(), front).nextId);
    FirstEdits(Run(Empty(), front), e, k);
  }

  lemma {:induction false} EditRowsNext<S>(events: seq<Event<S>>, k: Key)
    requires events != [] && k in Run(Empty(), events[..|events| - 1]).rows
    requires var s := Run(Empty(), events[..|events| - 1]);
      SnapshotsOf(s.edits, s.rows[k].id) == EditsSeen(events[..|events| - 1], k, s.rows[k].id)
    ensures k in Run(Empty(), events).rows
    ensures var s := Run(Empty(), events); SnapshotsOf(s.edits, s.rows[k].id) == EditsSeen(events, k, s.rows[k].id)
  {
    var front, e := events[..|events| - 1], events[|events| - 1];
    var s := Run(Empty(), front);
    RunIsTracked(front, k);
    SoundOnAnyRun(front);
    FileIsLast(front, k);
    NextEdits(s, e, k, Observed(Empty(), front, k));
    assert EditsSeen(events, k, s.rows[k].id) == EditsSeen(front, k, s.rows[k].id)
      + EditSeen(s, e, k, Observed(Empty(), front, k), s.rows[k].id, s.rows[k].file);
  }

  lemma FirstEdits<S>(s: Store<S>, e: Event<S>, k: Key)
    requires Sound(s) && k !in s.rows && k in Step(s, e).rows
    ensures var s' := Step(s, e); s'.rows[k].id == s.nextId && SnapshotsOf(s'.edits, s.nextId) == []
  {
    NoSnapshotsYet(s.edits, s.nextId);
  }

  lemma NextEdits<S>(s: Store<S>, e: Event<S>, k: Key, ms: seq<Message<S>>)
    requires Sound(s) && k in s.rows && ms != [] && Live(s, k, ms)
    ensures var s', id := Step(s, e), s.rows[k].id;
      && k in s'.rows && s'.rows[k].id == id
      && SnapshotsOf(s'.edits, id) == SnapshotsOf(s.edits, id) + EditSeen(s, e, k, ms, id, s.rows[k].file)
  {
    if Observes(s, e, k) {
      NextSnapshots(s, e.m);
      SnapshotIsEdit(s, e.m, ms);
    } else {
      Unobserved(s, e, k);
      UnobservedRow(s, e, k);
    }
  }

  lemma SnapshotIsEdit<S>(s: Store<S>, m: Message<S>, ms: seq<Message<S>>)
    requires m.key in s.rows && ms != [] && Live(s, m.key, ms)
    ensures var row, last := s.rows[m.key], ms[|ms| - 1];
      Snapshot(row, m) == if EditsLast(ms, m) then [Edit(row.id, last.content, row.file, m.editDate)] else []
  {
    assert s.rows[m.key].content == Bare(s.rows[m.key]).content == ms[|ms| - 1].content;
    assert s.rows[m.key].editDate == Bare(s.rows[m.key]).editDate == ms[|ms| - 1].editDate;
  }

  lemma {:induction false} NoEditsBefore<S>(events: seq<Event<S>>, k: Key, id: nat)
    requires Observed(Empty(), events, k) == []
    ensures EditsSeen(events, k, id) == []
  {
    if events != [] {
      NoEditsBefore(events[..|events| - 1], k, id);
    }
  }

  // ---------------------------------------------------------------- whether a message is deleted

  /** What was last upserted of message k, deletion notices included. */
  function LastUpsert<S>(events: seq<Event<S>>, k: Key): Option<Message<S>> {
    if events == [] then None
    else
      var e := events[|events| - 1];
      if e.Upsert? && e.m.key == k then Some(e.m) else LastUpsert(events[..|events| - 1], k)
  }

  /** On every run a message has a row exactly if it was ever upserted alive. */
  lemma {:induction false} HasRowIfUpserted<S>(events: seq<Event<S>>, k: Key)
    ensures k in Run(Empty(), events).rows <==> exists i ::
      0 <= i < |events| && events[i].Upsert? && events[i].m.key == k && !events[i].m.deleted
  {
    if events != [] {
      var front, e := events[..|events| - 1], events[|events| - 1];
      HasRowIfUpserted(front, k);
      assert forall i :: 0 <= i < |front| ==> front[i] == events[i];
      RowAfter(Run(Empty(), front), e, k);
    }
  }

  lemma RowAfter<S>(s: Store<S>, e: Event<S>, k: Key)
    ensures k in Step(s, e).rows <==> k in s.rows || (e.Upsert? && e.m.key == k && !e.m.deleted)
  {
  }

  lemma DeletedAfter<S>(s: Store<S>, e: Event<S>, k: Key)
    requires k in Step(s, e).rows
    ensures e.Upsert? && e.m.key == k ==> Step(s, e).rows[k].deleted == e.m.deleted
    ensures !(e.Upsert? && e.m.key == k) ==> k in s.rows && Step(s, e).rows[k].deleted == s.rows[k].deleted
  {
  }

  /** On every run a message is marked deleted exactly if the last thing upserted of it was its deletion. */
  lemma {:induction false} DeletedIfLastUpsert<S>(events: seq<Event<S>>, k: Key)
    requires k in Run(Empty(), events).rows
    ensures var last := LastUpsert(events, k);
      last.Some? && Run(Empty(), events).rows[k].deleted == last.value.deleted
  {
    var front, e := events[..|events| - 1], events[|events| - 1];
    DeletedAfter(Run(Empty(), front), e, k);
    if !(e.Upsert? && e.m.key == k) {
      DeletedIfLastUpsert(front, k);
    }
  }

  // ---------------------------------------------------------------- snapshot dates

  /** Snapshot dates strictly increase and do not exceed the live edit date. */
  ghost predicate Dated(snaps: seq<Edit>, live: int) {
    && (forall i, j :: 0 <= i < j < |snaps| ==> snaps[i].date < snaps[j].date)
    && (snaps != [] ==> snaps[|snaps| - 1].date <= live)
  }

  /** The order of the dates survives an observation exactly if it is not older than the last snapshot. */
  lemma DatesKeptIff<S>(s: Store<S>, m: Message<S>)
    requires m.key in s.rows && Observes(s, Upsert(m), m.key)
    requires Dated(SnapshotsOf(s.edits, s.rows[m.key].id), s.rows[m.key].editDate)
    ensures var id, s' := s.rows[m.key].id, Upserted(s, m); var snaps := SnapshotsOf(s.edits, id);
      Dated(SnapshotsOf(s'.edits, id), s'.rows[m.key].editDate)
      <==> (snaps == [] || m.editDate >= snaps[|snaps| - 1].date)
  {
    var row := s.rows[m.key];
    NextSnapshots(s, m);
    if IsEdit(row, m) {
      DatedSnoc(SnapshotsOf(s.edits, row.id), Edit(row.id, row.content, row.file, m.editDate), row.editDate);
    }
  }

  lemma DatedSnoc(snaps: seq<Edit>, edit: Edit, live: int)
    requires Dated(snaps, live) && edit.date > live
    ensures Dated(snaps + [edit], edit.date)
  {
    assert forall i :: 0 <= i < |snaps| ==> snaps[i].date <= snaps[|snaps| - 1].date;
  }

  /** The dates a caller can check before: no older message after a newer one, and equal dates carry equal content. */
  ghost predicate DatesInOrder<S>(events: seq<Event<S>>, k: Key) {
    forall i, j :: 0 <= i < j < |events| && Shows(events[i], k) && Shows(events[j], k) ==>
      && events[i].m.editDate <= events[j].m.editDate
      && (events[i].m.editDate == events[j].m.editDate ==> events[i].m.content == events[j].m.content)
  }

  predicate Shows<S>(e: Event<S>, k: Key) {
    e.Upsert? && e.m.key == k && !e.m.deleted
  }

  /** No message is deleted twice. */
  ghost predicate DeletesLiveOnly<S>(s: Store<S>, events: seq<Event<S>>, k: Key) {
    forall i :: 0 <= i < |events| && events[i].Upsert? && events[i].m.key == k && events[i].m.deleted ==>
      !Observes(Run(s, events[..i]), events[i], k)
  }

  /** The last observation is one of the messages shown. */
  lemma {:induction false} LastObservedShown<S>(events: seq<Event<S>>, k: Key) returns (i: nat)
    requires DeletesLiveOnly(Empty(), events, k) && Observed(Empty(), events, k) != []
    ensures var ms := Observed(Empty(), events, k);
      i < |events| && Shows(events[i], k) && events[i].m == ms[|ms| - 1]
  {
    var n := |events| - 1;
    var front := events[..n];
    if Observes(Run(Empty(), front), events[n], k) {
      i := n;
    } else {
      FrontDeletes(events, k);
      i := LastObservedShown(front, k);
    }
  }

  lemma FrontDeletes<S>(events: seq<Event<S>>, k: Key)
    requires events != [] && DeletesLiveOnly(Empty(), events, k)
    ensures DeletesLiveOnly(Empty(), events[..|events| - 1], k)
  {
    var front := events[..|events| - 1];
    forall i | 0 <= i < |front| && front[i].Upsert? && front[i].m.key == k && front[i].m.deleted
      ensures !Observes(Run(Empty(), front[..i]), front[i], k)
    {
      assert front[..i] == events[..i] && front[i] == events[i];
    }
  }

  lemma {:induction false} InOrderAdvances<S>(events: seq<Event<S>>, k: Key)
    requires DatesInOrder(events, k) && DeletesLiveOnly(Empty(), events, k)
    ensures Advancing(Observed(Empty(), events, k))
  {
    if events != [] {
      var n := |events| - 1;
      var front, ms := events[..n], Observed(Empty(), events[..n], k);
      FrontDeletes(events, k);
      assert DatesInOrder(front, k);
      InOrderAdvances(front, k);
      if Observes(Run(Empty(), front), events[n], k) && ms != [] {
        var i := LastObservedShown(front, k);
        assert front[i] == events[i] && Shows(events[n], k);
        AdvancingSnoc(ms, events[n].m);
      } else {
        assert ms == [] ==> |Observed(Empty(), events, k)| <= 1;
      }
    }
  }

  ghost predicate DatedRow<S>(s: Store<S>, k: Key) {
    k in s.rows ==> Dated(SnapshotsOf(s.edits, s.rows[k].id), s.rows[k].editDate)
  }

  lemma {:induction false} InOrderDates<S>(events: seq<Event<S>>, k: Key)
    requires DatesInOrder(events, k) && DeletesLiveOnly(Empty(), events, k)
    ensures DatedRow(Run(Empty(), events), k)
  {
    if events != [] {
      var n := |events| - 1;
      var front, e := events[..n], events[n];
      FrontDeletes(events, k);
      assert DatesInOrder(front, k);
      InOrderDates(front, k);
      SoundOnAnyRun(front);
      RunIsTracked(front, k);
      var s := Run(Empty(), front);
      if !Observes(s, e, k) {
        if k in s.rows {
          Unobserved(s, e, k);
        }
      } else if k !in s.rows {
        NoSnapshotsYet(s.edits, s.nextId);
      } else {
        var i := LastObservedShown(front, k);
        assert front[i] == events[i] && Shows(e, k);
        DatesKeptIff(s, e.m);
      }
    }
  }

  /**
   No version of a message is lost, and snapshot dates are in order, on every run in which its edit
   dates do not decrease, equal dates carry equal content, and only a live message is deleted.
   */
  lemma {:induction false} NoVersionIsLost<S>(events: seq<Event<S>>, k: Key)
    requires DatesInOrder(events, k) && DeletesLiveOnly(Empty(), events, k) && Observed(Empty(), events, k) != []
    ensures var s, ms := Run(Empty(), events), Observed(Empty(), events, k);
      && k in s.rows
      && Versions(s, k) == Dedup(ContentsOf(ms))
      && Dated(SnapshotsOf(s.edits, s.rows[k].id), s.rows[k].editDate)
  {
    InOrderAdvances(events, k);
    VersionsCompleteIff(events, k);
    InOrderDates(events, k);
  }

  // ---------------------------------------------------------------- where versions do get lost

  /** What handle_delete_messages sends: no content, edit date 0. */
  function Notice<S>(k: Key, sender: S): Message<S> {
    Message(k, sender, false, 0, 0, Content(Unknown, None), true, None)
  }

  /**
   Deletion is not idempotent.  A notice keeps the stored content if and only if the message is still
   live or had no content; otherwise it blanks the row and, since its edit date is 0, leaves no
   snapshot of what was there.
   */
  lemma RepeatedDeletionBlanks<S>(s: Store<S>, k: Key, sender: S)
    requires k in s.rows && s.rows[k].editDate >= 0
    ensures var s' := Upserted(s, Notice(k, sender));
      && (s'.rows[k].content == s.rows[k].content
        <==> !s.rows[k].deleted || s.rows[k].content == Content(Unknown, None))
      && s'.rows[k].deleted && s'.edits == s.edits
  {
    assert !IsEdit(s.rows[k], Notice(k, sender));
  }

  /** A stale or equal edit date with new content overwrites the live row without a snapshot. */
  lemma StaleEditLosesVersion<S>(m: Message<S>, edited: Message<S>)
    requires !m.deleted && !edited.deleted && edited.key == m.key
    requires edited.content != m.content && edited.editDate <= m.editDate
    ensures var events := [Upsert(m), Upsert(edited)];
      && Observed(Empty(), events, m.key) == [m, edited]
      && m.key in Run(Empty(), events).rows
      && Versions(Run(Empty(), events), m.key) == [edited.content]
  {
    var events := [Upsert(m), Upsert(edited)];
    assert events[..1] == [Upsert(m)] && [Upsert(m)][..0] == [];
    assert Run(Empty(), [Upsert(m)]) == Upserted(Empty(), m);
    assert Observed(Empty(), [Upsert(m)], m.key) == [m];
    NoSnapshotsYet([], 1);
  }
}
