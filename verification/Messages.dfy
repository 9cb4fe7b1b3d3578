/**
 One table of messages with its edit history and forward infos, as an abstract machine.

 S is what a table stores about the sender; module MessageTables shows that the private and the group
 tables of the source both run this machine, and module MessageHistory says what its runs keep.
 */
module Messages {
  import opened Common

  type Key = (int, int)                                              // UNIQUE (chat_id, message_id)

  datatype ContentType = Text | Photo | Video | Document | Audio | Voice | Sticker | Animation | Unknown

  /** What an edit is recognised by; the file is linked later and not compared. */
  datatype Content = Content(kind: ContentType, text: Option<string>)

  datatype OriginType = User | HiddenUser | Chat | Channel

  datatype ForwardInfo = ForwardInfo(
    origin: OriginType, user: Option<int>, name: Option<string>, chat: Option<int>, message: Option<int>, date: int)

  /** A message as received, or a mere deletion notice. */
  datatype Message<S> = Message(
    key: Key, sender: S, outgoing: bool, date: int, editDate: int, content: Content, deleted: bool,
    forward: Option<ForwardInfo>)

  datatype Row<S> = Row(
    id: nat, sender: S, outgoing: bool, date: int, editDate: int, content: Content, deleted: bool, forwarded: bool,
    file: Option<int>, replyTo: Option<Key>, replyId: Option<nat>)

  /** A row of the append-only edit table: what the message was before the edit of that date. */
  datatype Edit = Edit(row: nat, content: Content, file: Option<int>, date: int)

  datatype Store<S> = Store(rows: map<Key, Row<S>>, edits: seq<Edit>, forwards: map<nat, ForwardInfo>, nextId: nat)

  // ---------------------------------------------------------------- one call

  function Inserted<S>(id: nat, m: Message<S>): Row<S> {
    Row(id, m.sender, m.outgoing, m.date, m.editDate, m.content, m.deleted, m.forward.Some?, None, None, None)
  }

  /** ON DUPLICATE KEY UPDATE: every column but the key, the file and the reply. */
  function Rewritten<S>(row: Row<S>, m: Message<S>): Row<S> {
    Inserted(row.id, m).(file := row.file, replyTo := row.replyTo, replyId := row.replyId)
  }

  /** A genuine edit: the edit date advanced and type or text changed. */
  predicate IsEdit<S(==)>(row: Row<S>, m: Message<S>) {
    m.editDate > row.editDate && m.content != row.content
  }

  function Snapshot<S(==)>(row: Row<S>, m: Message<S>): seq<Edit> {
    if IsEdit(row, m) then [Edit(row.id, row.content, row.file, m.editDate)] else []
  }

  /** The forward info of a message is recorded once. */
  function Recorded(forwards: map<nat, ForwardInfo>, id: nat, forward: Option<ForwardInfo>): map<nat, ForwardInfo> {
    if forward.Some? && id !in forwards then forwards[id := forward.value] else forwards
  }

  function Upserted<S(==)>(s: Store<S>, m: Message<S>): Store<S> {
    if m.key !in s.rows then
      if m.deleted then s
      else
        Store(s.rows[m.key := Inserted(s.nextId, m)], s.edits, Recorded(s.forwards, s.nextId, m.forward), s.nextId + 1)
    else
      var row := s.rows[m.key];
      if m.deleted && !row.deleted then s.(rows := s.rows[m.key := row.(deleted := true)])
      else
        Store(s.rows[m.key := Rewritten(row, m)], s.edits + Snapshot(row, m),
              Recorded(s.forwards, row.id, m.forward), s.nextId + 1)
  }

  function FileSet<S>(s: Store<S>, key: Key, file: int): Store<S> {
    if key in s.rows then s.(rows := s.rows[key := s.rows[key].(file := Some(file))]) else s
  }

  /** The replied message is named by its key, and by its id if it is in the same table already. */
  function ReplySet<S>(s: Store<S>, key: Key, target: Key): Store<S> {
    if key in s.rows then
      var id := if target in s.rows then Some(s.rows[target].id) else None;
      s.(rows := s.rows[key := s.rows[key].(replyTo := Some(target), replyId := id)])
    else s
  }

  // ---------------------------------------------------------------- runs

  datatype Event<S> =
    | Upsert(m: Message<S>)
    | SetFile(key: Key, file: int)
    | SetReply(key: Key, target: Key)

  function Step<S(==)>(s: Store<S>, e: Event<S>): Store<S> {
    match e
    case Upsert(m) => Upserted(s, m)
    case SetFile(key, file) => FileSet(s, key, file)
    case SetReply(key, target) => ReplySet(s, key, target)
  }

  function Run<S(==)>(s: Store<S>, events: seq<Event<S>>): Store<S> {
    if events == [] then s else Step(Run(s, events[..|events| - 1]), events[|events| - 1])
  }

  function Empty<S>(): Store<S> {
    Store(map[], [], map[], 1)
  }
}
