/**
 The users and groups tables with their history tables, updated statement by statement.  Each method
 is proved to take the step of module Profiles.  The username part of upsertUser and upsertGroup is
 Usernames.UsernameTable.Sync, run in the same transaction on tables of its own.
 */
module ProfileTables {
  import opened Common
  import opened Profiles

  type Name = (string, string)                                       // first_name, last_name

  datatype UserRow = UserRow(
    firstName: string, lastName: string, phoneNumber: string, profilePhotoFileId: Option<int>, bio: Option<string>)

  class UserTable {
    var users: map<int, UserRow>
    var histName: seq<(int, Name)>
    var histPhoneNum: seq<(int, string)>
    var histProfilePhoto: seq<(int, int)>
    var histBio: seq<(int, string)>

    ghost function Contents(): Store<Name>
      reads this
    {
      Store(Column(Names(users), histName), Column(Phones(users), histPhoneNum),
            Column(Photos(users), histProfilePhoto), Column(Bios(users), histBio))
    }

    static ghost function Names(users: map<int, UserRow>): map<int, Name> {
      map id | id in users :: (users[id].firstName, users[id].lastName)
    }

    static ghost function Phones(users: map<int, UserRow>): map<int, string> {
      map id | id in users :: users[id].phoneNumber
    }

    static ghost function Photos(users: map<int, UserRow>): map<int, int> {
      map id | id in users && users[id].profilePhotoFileId.Some? :: users[id].profilePhotoFileId.value
    }

    static ghost function Bios(users: map<int, UserRow>): map<int, string> {
      map id | id in users && users[id].bio.Some? :: users[id].bio.value
    }

    /** One written row changes each column at its id only. */
    static lemma RowWritten(users: map<int, UserRow>, id: int, row: UserRow)
      ensures var users' := users[id := row];
        && Names(users') == Names(users)[id := (row.firstName, row.lastName)]
        && Phones(users') == Phones(users)[id := row.phoneNumber]
        && Photos(users')
           == (if row.profilePhotoFileId.Some?
             then Photos(users)[id := row.profilePhotoFileId.value] else Photos(users) - {id})
        && Bios(users') == (if row.bio.Some? then Bios(users)[id := row.bio.value] else Bios(users) - {id})
    {
    }

    /** A column whose value in the row is not new stays as it is. */
    static lemma SameColumns(users: map<int, UserRow>, id: int, row: UserRow)
      requires id in users
      ensures var users', was := users[id := row], users[id];
        && ((row.firstName, row.lastName) == (was.firstName, was.lastName) ==> Names(users') == Names(users))
        && (row.phoneNumber == was.phoneNumber ==> Phones(users') == Phones(users))
        && (row.profilePhotoFileId == was.profilePhotoFileId ==> Photos(users') == Photos(users))
        && (row.bio == was.bio ==> Bios(users') == Bios(users))
    {
    }

    constructor ()
      ensures Contents() == Empty()
    {
      users, histName, histPhoneNum, histProfilePhoto, histBio := map[], [], [], [], [];
    }

    /** upsertUser */
    method UpsertUser(id: int, firstName: string, lastName: string, phoneNumber: string)
      modifies this
      ensures Contents() == Step(old(Contents()), Upsert(id, (firstName, lastName), phoneNumber))
    {
      ghost var before := Contents();
      var seen := id in users;
      var row := if seen then users[id] else UserRow("", "", "", None, None);
      RowWritten(users, id, row.(firstName := firstName, lastName := lastName, phoneNumber := phoneNumber));
      users := users[id := row.(firstName := firstName, lastName := lastName, phoneNumber := phoneNumber)];
      assert Photos(users) == old(Photos(users)) && Bios(users) == old(Bios(users));
      if !seen {
        histName := histName + [(id, (firstName, lastName))];
        histPhoneNum := histPhoneNum + [(id, phoneNumber)];
      } else {
        if row.firstName != firstName || row.lastName != lastName {
          histName := histName + [(id, (row.firstName, row.lastName))];
        }
        if row.phoneNumber != phoneNumber {
          histPhoneNum := histPhoneNum + [(id, row.phoneNumber)];
        }
      }
      assert histName == before.first.log + Entry(before.first, id, (firstName, lastName));
      assert histPhoneNum == before.second.log + Entry(before.second, id, phoneNumber);
    }

    /** trackProfilePhotoChange */
    method TrackProfilePhotoChange(id: int, file: int)
      modifies this`histProfilePhoto
      ensures var c := old(Contents()).photo;
        histProfilePhoto == if id in users then c.log + Entry(c, id, file) else c.log
    {
      if id !in users {
        return;
      }
      if users[id].profilePhotoFileId.None? {
        histProfilePhoto := histProfilePhoto + [(id, file)];
        return;
      }
      var was := users[id].profilePhotoFileId.value;
      if was == file {
        return;
      }
      histProfilePhoto := histProfilePhoto + [(id, was)];
    }

    /** setUserProfilePhoto */
    method SetUserProfilePhoto(id: int, file: int)
      modifies this
      ensures Contents() == Step(old(Contents()), SetPhoto(id, file))
    {
      TrackProfilePhotoChange(id, file);
      if id in users {
        var row := users[id].(profilePhotoFileId := Some(file));
        RowWritten(users, id, row);
        SameColumns(users, id, row);
        users := users[id := row];
      }
    }

    /** upsertUserFullInfo */
    method UpsertUserFullInfo(id: int, bio: string)
      modifies this
      ensures Contents() == Step(old(Contents()), FullInfo(id, bio))
    {
      if id !in users {
        return;
      }
      var oldBio := if users[id].bio.Some? then users[id].bio.value else "";
      if oldBio != bio {
        histBio := histBio + [(id, oldBio)];
      }
      var row := users[id].(bio := Some(bio));
      RowWritten(users, id, row);
      SameColumns(users, id, row);
      users := users[id := row];
    }
  }

  datatype GroupRow = GroupRow(title: string, description: string, photoFileId: Option<int>)

  class GroupTable {
    var groups: map<int, GroupRow>
    var histTitle: seq<(int, string)>
    var histDescription: seq<(int, string)>
    var histPhoto: seq<(int, int)>

    /** Groups have no bio column. */
    ghost function Contents(): Store<string>
      reads this
    {
      Store(Column(Titles(groups), histTitle), Column(Descriptions(groups), histDescription),
            Column(Photos(groups), histPhoto), Column(map[], []))
    }

    static ghost function Titles(groups: map<int, GroupRow>): map<int, string> {
      map id | id in groups :: groups[id].title
    }

    static ghost function Descriptions(groups: map<int, GroupRow>): map<int, string> {
      map id | id in groups :: groups[id].description
    }

    static ghost function Photos(groups: map<int, GroupRow>): map<int, int> {
      map id | id in groups && groups[id].photoFileId.Some? :: groups[id].photoFileId.value
    }

    static lemma RowWritten(groups: map<int, GroupRow>, id: int, row: GroupRow)
      ensures var groups' := groups[id := row];
        && Titles(groups') == Titles(groups)[id := row.title]
        && Descriptions(groups') == Descriptions(groups)[id := row.description]
        && Photos(groups')
           == (if row.photoFileId.Some? then Photos(groups)[id := row.photoFileId.value] else Photos(groups) - {id})
    {
    }

    constructor ()
      ensures Contents() == Empty()
    {
      groups, histTitle, histDescription, histPhoto := map[], [], [], [];
    }

    /** upsertGroup */
    method UpsertGroup(id: int, title: string, description: string)
      modifies this
      ensures Contents() == Step(old(Contents()), Upsert(id, title, description))
    {
      ghost var before := Contents();
      var seen := id in groups;
      var row := if seen then groups[id] else GroupRow("", "", None);
      RowWritten(groups, id, row.(title := title, description := description));
      groups := groups[id := row.(title := title, description := description)];
      if !seen {
        histTitle := histTitle + [(id, title)];
        histDescription := histDescription + [(id, description)];
      } else {
        if row.title != title {
          histTitle := histTitle + [(id, row.title)];
        }
        if row.description != description {
          histDescription := histDescription + [(id, row.description)];
        }
      }
      assert histTitle == before.first.log + Entry(before.first, id, title);
      assert histDescription == before.second.log + Entry(before.second, id, description);
    }

    /** trackGroupPhotoChange */
    method TrackGroupPhotoChange(id: int, file: int)
      modifies this`histPhoto
      ensures var c := old(Contents()).photo;
        histPhoto == if id in groups then c.log + Entry(c, id, file) else c.log
    {
      if id !in groups {
        return;
      }
      if groups[id].photoFileId.None? {
        histPhoto := histPhoto + [(id, file)];
        return;
      }
      var was := groups[id].photoFileId.value;
      if was == file {
        return;
      }
      histPhoto := histPhoto + [(id, was)];
    }

    /** setGroupPhoto */
    method SetGroupPhoto(id: int, file: int)
      modifies this
      ensures Contents() == Step(old(Contents()), SetPhoto(id, file))
    {
      TrackGroupPhotoChange(id, file);
      if id in groups {
        RowWritten(groups, id, groups[id].(photoFileId := Some(file)));
        groups := groups[id := groups[id].(photoFileId := Some(file))];
      }
    }
  }
}
