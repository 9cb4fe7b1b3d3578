/**
 The message tables of the source, updated statement by statement: DB::upsertPrivateMessage,
 DB::upsertGroupMessage, their file and reply setters, and the helpers of models/Message.cpp that
 both share.  Each method is proved to take the step of the abstract machine of module Messages.

 A transaction is one atomic method; a failing one leaves the tables unchanged.
 */
module MessageTables {
  import opened Common
  import opened Messages

  /** One *_edits table and the *_fwd_info table beside it. */
  class MessageLog {
    var edits: seq<Edit>
    var forwards: map<nat, ForwardInfo>                              // UNIQUE (*_message_id)

    constructor ()
      ensures edits == [] && forwards == map[]
    {
      edits, forwards := [], map[];
    }

    /** snapshotMessageEditIfChanged */
    method SnapshotIfChanged(
      row: nat, oldContent: Content, oldFile: Option<int>, oldEditDate: int, newContent: Content, newEditDate: int)
      returns (taken: bool)
      modifies this`edits
      ensures taken <==> newEditDate > oldEditDate && newContent != oldContent
      ensures edits == if taken then old(edits) + [Edit(row, oldContent, oldFile, newEditDate)] else old(edits)
    {
      if newEditDate <= oldEditDate {
        return false;
      }
      if oldContent.kind == newContent.kind && oldContent.text == newContent.text {
        return false;
      }
      edits := edits + [Edit(row, oldContent, oldFile, newEditDate)];
      return true;
    }

    /** insertForwardInfo */
    method InsertForwardInfo(row: nat, info: ForwardInfo)
      modifies this`forwards
      ensures forwards == Recorded(old(forwards), row, Some(info))
    {
      if row in forwards {
        return;
      }
      forwards := forwards[row := info];
    }
  }

  // ---------------------------------------------------------------- private messages

  datatype PrivateMessage = PrivateMessage(
    chatId: int, messageId: int, senderId: Option<int>, isOutgoing: bool, date: int, editDate: int,
    contentType: ContentType, text: Option<string>, isDeleted: bool, forwardInfo: Option<ForwardInfo>)
  {
    function Abstract(): Message<Option<int>> {
      Message((chatId, messageId), senderId, isOutgoing, date, editDate, Content(contentType, text), isDeleted,
        forwardInfo)
    }
  }

  datatype PrivateRow = PrivateRow(
    id: nat, senderId: Option<int>, isOutgoing: bool, date: int, editDate: int, contentType: ContentType,
    text: Option<string>, fileId: Option<int>, isDeleted: bool, isForwarded: bool, replyToChatId: Option<int>,
    replyToMsgId: Option<int>, replyToId: Option<nat>)
  {
    /** Both reply columns are set together. */
    function Abstract(): Row<Option<int>> {
      Row(id, senderId, isOutgoing, date, editDate, Content(contentType, text), isDeleted, isForwarded, fileId,
          ReplyKey(replyToChatId, replyToMsgId), replyToId)
    }
  }

  function ReplyKey(chat: Option<int>, msg: Option<int>): Option<Key> {
    if chat.Some? && msg.Some? then Some((chat.value, msg.value)) else None
  }

  class PrivateMessages {
    var rows: map<Key, PrivateRow>
    var nextId: nat                                                  // AUTO_INCREMENT
    const log: MessageLog

    static ghost function AbstractRows(rows: map<Key, PrivateRow>): map<Key, Row<Option<int>>> {
      map k | k in rows :: rows[k].Abstract()
    }

    ghost function Contents(): Store<Option<int>>
      reads this, log
    {
      Store(AbstractRows(rows), log.edits, log.forwards, nextId)
    }

    constructor ()
      ensures fresh(log) && Contents() == Empty()
    {
      rows, nextId := map[], 1;
      log := new MessageLog();
    }

    /** The snapshot that an upsert takes: content and file as they were, under the new edit date. */
    static function Replaced(rows: map<Key, PrivateRow>, msg: PrivateMessage): seq<Edit> {
      var k := (msg.chatId, msg.messageId);
      if k in rows && (msg.isDeleted ==> rows[k].isDeleted) && msg.editDate > rows[k].editDate
         && (msg.contentType != rows[k].contentType || msg.text != rows[k].text)
      then [Edit(rows[k].id, Content(rows[k].contentType, rows[k].text), rows[k].fileId, msg.editDate)]
      else []
    }

    /** Column by column, the row shows the message. */
    static predicate Stores(row: PrivateRow, msg: PrivateMessage) {
      && row.senderId == msg.senderId && row.isOutgoing == msg.isOutgoing
      && row.date == msg.date && row.editDate == msg.editDate
      && row.contentType == msg.contentType && row.text == msg.text
      && row.isDeleted == msg.isDeleted && row.isForwarded == msg.forwardInfo.Some?
    }

    /** The INSERT ... ON DUPLICATE KEY UPDATE statement, which uses up an id either way. */
    method Write(msg: PrivateMessage) returns (id: nat)
      modifies this
      ensures nextId == old(nextId) + 1
      ensures var k, m, was := msg.Abstract().key, msg.Abstract(), AbstractRows(old(rows));
        && AbstractRows(rows) == was[k := if k in was then Rewritten(was[k], m) else Inserted(old(nextId), m)]
        && id == AbstractRows(rows)[k].id
      ensures (msg.chatId, msg.messageId) in rows && Stores(rows[(msg.chatId, msg.messageId)], msg)
    {
      var k := (msg.chatId, msg.messageId);
      if k in rows {
        rows := rows[k := rows[k].(
                  senderId := msg.senderId, isOutgoing := msg.isOutgoing, date := msg.date, editDate := msg.editDate,
                  contentType := msg.contentType, text := msg.text, isDeleted := msg.isDeleted,
                  isForwarded := msg.forwardInfo.Some?)];
      } else {
        rows := rows[k := PrivateRow(
                  nextId, msg.senderId, msg.isOutgoing, msg.date, msg.editDate, msg.contentType, msg.text, None,
                  msg.isDeleted, msg.forwardInfo.Some?, None, None, None)];
      }
      id := rows[k].id;
      nextId := nextId + 1;
    }

    /** The first sight of a message. */
    method InsertNew(msg: PrivateMessage)
      requires (msg.chatId, msg.messageId) !in rows && !msg.isDeleted
      modifies this, log
      ensures Contents() == Upserted(old(Contents()), msg.Abstract())
    {
      var newId := Write(msg);
      if msg.forwardInfo.Some? {
        log.InsertForwardInfo(newId, msg.forwardInfo.value);
      }
    }

    /** The UPDATE that only sets is_deleted. */
    method MarkDeleted(k: Key)
      requires k in rows
      modifies this`rows
      ensures AbstractRows(rows)
           == AbstractRows(old(rows))[k := AbstractRows(old(rows))[k].(deleted := true)]
    {
      ghost var was := AbstractRows(rows);
      rows := rows[k := rows[k].(isDeleted := true)];
      assert AbstractRows(rows) == was[k := was[k].(deleted := true)];
    }

    /** upsertPrivateMessage */
    method Upsert(msg: PrivateMessage)
      modifies this, log
      ensures Contents() == Upserted(old(Contents()), msg.Abstract())
      ensures log.edits == old(log.edits) + Replaced(old(rows), msg)
    {
      var k := (msg.chatId, msg.messageId);
      if k !in rows {
        if !msg.isDeleted {
          InsertNew(msg);
        }
        return;
      }
      var row := rows[k];
      assert AbstractRows(rows)[k] == row.Abstract();
      if msg.isDeleted && !row.isDeleted {
        MarkDeleted(k);
        return;
      }
      var _ := log.SnapshotIfChanged(
        row.id, Content(row.contentType, row.text), row.fileId, row.editDate,
        Content(msg.contentType, msg.text), msg.editDate);
      var _ := Write(msg);
      if msg.forwardInfo.Some? {
        log.InsertForwardInfo(row.id, msg.forwardInfo.value);
      }
    }

    /** setPrivateMessageFile */
    method SetMessageFile(chatId: int, messageId: int, fileId: int)
      modifies this`rows
      ensures Contents() == FileSet(old(Contents()), (chatId, messageId), fileId)
    {
      var k := (chatId, messageId);
      if k in rows {
        rows := rows[k := rows[k].(fileId := Some(fileId))];
      }
    }

    /** setPrivateMessageReply: one UPDATE over a LEFT JOIN of the table with itself. */
    method SetMessageReply(chatId: int, messageId: int, replyToChatId: int, replyToMessageId: int)
      modifies this`rows
      ensures Contents() == ReplySet(old(Contents()), (chatId, messageId), (replyToChatId, replyToMessageId))
    {
      var k, r := (chatId, messageId), (replyToChatId, replyToMessageId);
      if k in rows {
        var id := if r in rows then Some(rows[r].id) else None;
        rows := rows[k := rows[k].(
                  replyToChatId := Some(replyToChatId), replyToMsgId := Some(replyToMessageId), replyToId := id)];
      }
    }
  }

  // ---------------------------------------------------------------- group messages

  /** Sender columns of a group message. */
  datatype GroupSender = GroupSender(user: Option<int>, chat: Option<int>, channelPost: bool, signature: Option<string>)

  datatype GroupMessage = GroupMessage(
    chatId: int, messageId: int, senderUserId: Option<int>, senderChatId: Option<int>, isOutgoing: bool,
    isChannelPost: bool, authorSignature: Option<string>, date: int, editDate: int, contentType: ContentType,
    text: Option<string>, isDeleted: bool, forwardInfo: Option<ForwardInfo>)
  {
    function Abstract(): Message<GroupSender> {
      Message((chatId, messageId), GroupSender(senderUserId, senderChatId, isChannelPost, authorSignature),
              isOutgoing, date, editDate, Content(contentType, text), isDeleted, forwardInfo)
    }
  }

  datatype GroupRow = GroupRow(
    id: nat, senderUserId: Option<int>, senderChatId: Option<int>, isOutgoing: bool, isChannelPost: bool,
    authorSignature: Option<string>, date: int, editDate: int, contentType: ContentType, text: Option<string>,
    fileId: Option<int>, isDeleted: bool, isForwarded: bool, replyToChatId: Option<int>,
    replyToMsgId: Option<int>, replyToId: Option<nat>)
  {
    function Abstract(): Row<GroupSender> {
      Row(id, GroupSender(senderUserId, senderChatId, isChannelPost, authorSignature), isOutgoing, date, editDate,
          Content(contentType, text), isDeleted, isForwarded, fileId, ReplyKey(replyToChatId, replyToMsgId), replyToId)
    }
  }

  class GroupMessages {
    var rows: map<Key, GroupRow>
    var nextId: nat
    const log: MessageLog

    static ghost function AbstractRows(rows: map<Key, GroupRow>): map<Key, Row<GroupSender>> {
      map k | k in rows :: rows[k].Abstract()
    }

    ghost function Contents(): Store<GroupSender>
      reads this, log
    {
      Store(AbstractRows(rows), log.edits, log.forwards, nextId)
    }

    constructor ()
      ensures fresh(log) && Contents() == Empty()
    {
      rows, nextId := map[], 1;
      log := new MessageLog();
    }

    /** The snapshot that an upsert takes: content and file as they were, under the new edit date. */
    static function Replaced(rows: map<Key, GroupRow>, msg: GroupMessage): seq<Edit> {
      var k := (msg.chatId, msg.messageId);
      if k in rows && (msg.isDeleted ==> rows[k].isDeleted) && msg.editDate > rows[k].editDate
         && (msg.contentType != rows[k].contentType || msg.text != rows[k].text)
      then [Edit(rows[k].id, Content(rows[k].contentType, rows[k].text), rows[k].fileId, msg.editDate)]
      else []
    }

    /** Column by column, the row shows the message. */
    static predicate Stores(row: GroupRow, msg: GroupMessage) {
      && row.senderUserId == msg.senderUserId && row.senderChatId == msg.senderChatId
      && row.isChannelPost == msg.isChannelPost && row.authorSignature == msg.authorSignature
      && row.isOutgoing == msg.isOutgoing && row.date == msg.date && row.editDate == msg.editDate
      && row.contentType == msg.contentType && row.text == msg.text
      && row.isDeleted == msg.isDeleted && row.isForwarded == msg.forwardInfo.Some?
    }

    method Write(msg: GroupMessage) returns (id: nat)
      modifies this
      ensures nextId == old(nextId) + 1
      ensures var k, m, was := msg.Abstract().key, msg.Abstract(), AbstractRows(old(rows));
        && AbstractRows(rows) == was[k := if k in was then Rewritten(was[k], m) else Inserted(old(nextId), m)]
        && id == AbstractRows(rows)[k].id
      ensures (msg.chatId, msg.messageId) in rows && Stores(rows[(msg.chatId, msg.messageId)], msg)
    {
      var k := (msg.chatId, msg.messageId);
      if k in rows {
        rows := rows[k := rows[k].(
                  senderUserId := msg.senderUserId, senderChatId := msg.senderChatId, isOutgoing := msg.isOutgoing,
                  isChannelPost := msg.isChannelPost, authorSignature := msg.authorSignature, date := msg.date,
                  editDate := msg.editDate, contentType := msg.contentType, text := msg.text,
                  isDeleted := msg.isDeleted, isForwarded := msg.forwardInfo.Some?)];
      } else {
        rows := rows[k := GroupRow(
                  nextId, msg.senderUserId, msg.senderChatId, msg.isOutgoing, msg.isChannelPost, msg.authorSignature,
                  msg.date, msg.editDate, msg.contentType, msg.text, None, msg.isDeleted, msg.forwardInfo.Some?,
                  None, None, None)];
      }
      id := rows[k].id;
      nextId := nextId + 1;
    }

    /** The first sight of a message. */
    method InsertNew(msg: GroupMessage)
      requires (msg.chatId, msg.messageId) !in rows && !msg.isDeleted
      modifies this, log
      ensures Contents() == Upserted(old(Contents()), msg.Abstract())
    {
      var newId := Write(msg);
      if msg.forwardInfo.Some? {
        log.InsertForwardInfo(newId, msg.forwardInfo.value);
      }
    }

    /** The UPDATE that only sets is_deleted. */
    method MarkDeleted(k: Key)
      requires k in rows
      modifies this`rows
      ensures AbstractRows(rows)
           == AbstractRows(old(rows))[k := AbstractRows(old(rows))[k].(deleted := true)]
    {
      ghost var was := AbstractRows(rows);
      rows := rows[k := rows[k].(isDeleted := true)];
      assert AbstractRows(rows) == was[k := was[k].(deleted := true)];
    }

    /** upsertGroupMessage */
    method Upsert(msg: GroupMessage)
      modifies this, log
      ensures Contents() == Upserted(old(Contents()), msg.Abstract())
      ensures log.edits == old(log.edits) + Replaced(old(rows), msg)
    {
      var k := (msg.chatId, msg.messageId);
      if k !in rows {
        if !msg.isDeleted {
          InsertNew(msg);
        }
        return;
      }
      var row := rows[k];
      assert AbstractRows(rows)[k] == row.Abstract();
      if msg.isDeleted && !row.isDeleted {
        MarkDeleted(k);
        return;
      }
      var _ := log.SnapshotIfChanged(
        row.id, Content(row.contentType, row.text), row.fileId, row.editDate,
        Content(msg.contentType, msg.text), msg.editDate);
      var _ := Write(msg);
      if msg.forwardInfo.Some? {
        log.InsertForwardInfo(row.id, msg.forwardInfo.value);
      }
    }

    /** setGroupMessageFile */
    method SetMessageFile(chatId: int, messageId: int, fileId: int)
      modifies this`rows
      ensures Contents() == FileSet(old(Contents()), (chatId, messageId), fileId)
    {
      var k := (chatId, messageId);
      if k in rows {
        rows := rows[k := rows[k].(fileId := Some(fileId))];
      }
    }

    /** setGroupMessageReply */
    method SetMessageReply(chatId: int, messageId: int, replyToChatId: int, replyToMessageId: int)
      modifies this`rows
      ensures Contents() == ReplySet(old(Contents()), (chatId, messageId), (replyToChatId, replyToMessageId))
    {
      var k, r := (chatId, messageId), (replyToChatId, replyToMessageId);
      if k in rows {
        var id := if r in rows then Some(rows[r].id) else None;
        rows := rows[k := rows[k].(
                  replyToChatId := Some(replyToChatId), replyToMsgId := Some(replyToMessageId), replyToId := id)];
      }
    }
  }
}
