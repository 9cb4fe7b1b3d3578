/**
 The jobs that the event loop hands to the two thread pools (src/tgloggerd/TgLoggerd.cpp).  A job
 names the rows it writes; the SQL it runs is modelled by the persistence modules.
 */
module Models {

  /** A database row that other rows are linked to. */
  datatype Entity =
    | MessageRow(chat: int, id: int)   // private_messages / group_messages, keyed by (chat_id, message_id)
    | GroupRow(chat: int)              // groups, keyed by chat_id
    | UserRow(user: int)               // users

  /** The 17 chatAdministratorRights flags in the fixed order of admin_rights. */
  type Rights = r: seq<bool> | |r| == 17 witness seq(17, _ => false)

  /** One administrator as fetched (models::GroupAdmin). */
  datatype Admin = Admin(
    userId: int, isOwner: bool, title: string, inviter: int, joined: int, rights: Rights)

  /** Why a reply link is recorded. */
  datatype LinkReason =
    | Fetched        // the replied message was fetched and saved just before
    | AlreadySaved   // its fetch was remembered in the dedup set
    | DepthCap       // the chain walk reached its depth limit
    | Unavailable    // the fetch failed

  datatype SerialJob =
    | Save(row: Entity)                                              // upsert*Message, upsertGroup, upsertUser
    | SaveInfo(user: int)                                            // upsertUserFullInfo
    | Delete(chat: int, id: int)                                     // the same upserts with is_deleted set
    | LinkReply(src: Entity, target: Entity, reason: LinkReason)     // set*MessageReply
    | SyncAdmins(group: int, admins: seq<Admin>)                     // syncGroupAdmins
    | LinkFile(row: Entity, ticket: nat)                             // set*MessageFile, set*Photo

  datatype FileJob = StoreFile(row: Entity)                          // onMessageFile, onGroupPhoto, onProfilePhoto

  /** What a handler on the event loop does: post to serial_ or to files_. */
  datatype Emission = ToSerial(job: SerialJob) | ToFiles(file: FileJob)

  /** The link job of a stored file is posted by a file worker, never by the event loop. */
  ghost predicate FromLoop(script: seq<Emission>) {
    forall e <- script :: e.ToSerial? ==> !e.job.LinkFile?
  }

  /** Each job names only rows whose own save was emitted earlier. */
  ghost predicate WellOrdered(script: seq<Emission>) {
    forall i :: 0 <= i < |script| ==> Grounded(script[i], script[..i])
  }

  ghost predicate Grounded(e: Emission, before: seq<Emission>) {
    match e
    case ToFiles(StoreFile(row)) => ToSerial(Save(row)) in before
    case ToSerial(LinkReply(src, target, reason)) =>
      && ToSerial(Save(src)) in before
      && (reason.Fetched? || reason.AlreadySaved? ==> ToSerial(Save(target)) in before)
    case ToSerial(_) => true
  }

  lemma WellOrderedSnoc(script: seq<Emission>, e: Emission)
    requires WellOrdered(script) && Grounded(e, script)
    ensures WellOrdered(script + [e])
  {
    var s := script + [e];
    forall i | 0 <= i < |s|
      ensures Grounded(s[i], s[..i])
    {
      assert s[..i] == script[..i];
      assert i == |script| ==> script[..i] == script;
    }
  }
}
