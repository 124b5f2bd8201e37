/**
 * helpers/SlacklineStorage.ts: the app's records in the Apps Engine persistence. Records are
 * filed under an association key: one per user (holding the Slack token and the enabled flag)
 * and one shared `loginStorage` record (holding the map from login ids to user ids). Reads
 * take the first record under a key; a save removes what is there and creates one record.
 */
module SlacklineStorage {
  import opened Wrappers
  import opened AppsEngine

  /** `RocketChatAssociationRecord`: the USER or MISC model and an id. */
  datatype Assoc = UserAssoc(userId: string) | MiscAssoc(id: string)

  const LoginAssoc := MiscAssoc("loginStorage")

  /**
   * A stored object. Every field is optional, as in JavaScript; `updatedAt` is the time of the
   * save in milliseconds.
   */
  datatype Record = Record(
    token: Option<string>,
    enabled: Option<bool>,
    idMappings: Option<map<string, string>>,
    updatedAt: Option<int>)

  /** `{}`. */
  const EmptyRecord := Record(None, None, None, None)

  /** The persistence: every record filed under each association. */
  type Db = map<Assoc, seq<Record>>

  function UserAssocOf(user: LocalUser): (a: Assoc)
    ensures a.UserAssoc? && a != LoginAssoc
  {
    UserAssoc(user.id)
  }

  /** `getStorage` on a given persistence: the first record, or `{}` when there is none. */
  function StoredRecord(db: Db, assoc: Assoc): (r: Record)
    ensures (assoc !in db || db[assoc] == []) ==> r == EmptyRecord
    ensures assoc in db && db[assoc] != [] ==> r == db[assoc][0]
  {
    if assoc in db && |db[assoc]| > 0 then db[assoc][0] else EmptyRecord
  }

  /**
   * `saveStorage` on a given persistence. `getStorage` is not awaited, so the fields are
   * copied onto a pending promise, not onto the stored record: the new record is the passed
   * fields and the save time, and nothing of the old record is kept.
   */
  function Saved(db: Db, assoc: Assoc, rec: Record, now: int): (db': Db)
    ensures assoc in db' && db'[assoc] == [rec.(updatedAt := Some(now))]
    ensures forall a :: a in db && a != assoc ==> a in db' && db'[a] == db[a]
    ensures forall a :: a in db' ==> a in db || a == assoc
  {
    db[assoc := [rec.(updatedAt := Some(now))]]
  }

  /** `getLoginStorage` on a given persistence: the stored record, with an empty map when it has none. */
  function LoginRecord(db: Db): (r: Record)
    ensures r.idMappings.Some?
    ensures StoredRecord(db, LoginAssoc).idMappings.Some? ==> r == StoredRecord(db, LoginAssoc)
    ensures StoredRecord(db, LoginAssoc).idMappings.None? ==> r == EmptyRecord.(idMappings := Some(map[]))
  {
    var stored := StoredRecord(db, LoginAssoc);
    if stored.idMappings.None? then EmptyRecord.(idMappings := Some(map[])) else stored
  }

  function MappingsOf(db: Db): map<string, string>
  {
    LoginRecord(db).idMappings.value
  }

  /**
   * `getUserForLoginId` on a given persistence: the user whose id is mapped to the login id,
   * when the mapping is present and not '' and the user exists.
   */
  function UserForLoginIdIn(db: Db, loginId: string, dir: Directory): (r: Option<LocalUser>)
    ensures loginId !in MappingsOf(db) ==> r == None
    ensures r.Some? <==> loginId in MappingsOf(db) && MappingsOf(db)[loginId] != ""
                         && MappingsOf(db)[loginId] in dir.byId
    ensures r.Some? ==> r.value == dir.byId[MappingsOf(db)[loginId]]
  {
    var m := MappingsOf(db);
    if loginId in m && m[loginId] != "" then dir.GetById(m[loginId]) else None
  }

  /** `setUserForLoginId` on a given persistence: the login record saved back with one more entry. */
  function WithLoginId(db: Db, user: LocalUser, loginId: string, now: int): (r: Db)
    ensures MappingsOf(r) == MappingsOf(db)[loginId := user.id]
    ensures forall a :: a != LoginAssoc ==> StoredRecord(r, a) == StoredRecord(db, a)
  {
    var login := LoginRecord(db);
    Saved(db, LoginAssoc, login.(idMappings := Some(login.idMappings.value[loginId := user.id])), now)
  }

  /**
   * After a save exactly one record is filed under the key; it carries the saved fields and
   * the save time, and a field not passed is absent even if the old record had it.
   */
  lemma SaveEffect(db: Db, assoc: Assoc, rec: Record, now: int)
    ensures |Saved(db, assoc, rec, now)[assoc]| == 1
    ensures StoredRecord(Saved(db, assoc, rec, now), assoc) == rec.(updatedAt := Some(now))
    ensures rec.token.None? ==> StoredRecord(Saved(db, assoc, rec, now), assoc).token.None?
    ensures forall a :: a != assoc ==> StoredRecord(Saved(db, assoc, rec, now), a) == StoredRecord(db, a)
  {
  }

  /**
   * Login-id round trip: once a login id is set for a user, it resolves to the directory's
   * user with that id (a user id '' is falsy and resolves to nothing).
   */
  lemma LoginIdRoundTrip(db: Db, user: LocalUser, loginId: string, now: int, dir: Directory)
    ensures UserForLoginIdIn(WithLoginId(db, user, loginId, now), loginId, dir)
         == if user.id == "" then None else dir.GetById(user.id)
  {
    assert MappingsOf(WithLoginId(db, user, loginId, now)) == MappingsOf(db)[loginId := user.id];
  }

  /** Setting one login id leaves every other login id resolving as before. */
  lemma LoginIdIsolation(db: Db, user: LocalUser, loginId: string, other: string, now: int, dir: Directory)
    requires other != loginId
    ensures UserForLoginIdIn(WithLoginId(db, user, loginId, now), other, dir) == UserForLoginIdIn(db, other, dir)
  {
    assert MappingsOf(WithLoginId(db, user, loginId, now)) == MappingsOf(db)[loginId := user.id];
  }

  /** Setting the same login id twice: the second user wins. */
  lemma LoginIdLastWriteWins(db: Db, first: LocalUser, second: LocalUser, loginId: string, t1: int, t2: int)
    ensures MappingsOf(WithLoginId(WithLoginId(db, first, loginId, t1), second, loginId, t2))
         == MappingsOf(db)[loginId := second.id]
  {
    var db1 := WithLoginId(db, first, loginId, t1);
    assert MappingsOf(db1) == MappingsOf(db)[loginId := first.id];
    assert MappingsOf(WithLoginId(db1, second, loginId, t2)) == MappingsOf(db1)[loginId := second.id];
  }

  /** Login bookkeeping never touches a user's own record. */
  lemma LoginIdKeepsUserRecords(db: Db, user: LocalUser, loginId: string, now: int, someone: LocalUser)
    ensures StoredRecord(WithLoginId(db, user, loginId, now), UserAssocOf(someone)) == StoredRecord(db, UserAssocOf(someone))
  {
  }

  /**
   * `SlacklineStorage` over the persistence it reads and writes. The class holds the
   * persistence itself, which the source reaches through its `read` and `persis` accessors;
   * `slackIds` records the calls to `setUserForSlackId`, a method the class does not define.
   */
  class Storage {
    var db: Db
    var slackIds: map<string, string>

    constructor(db0: Db)
      ensures db == db0 && slackIds == map[]
    {
      db := db0;
      slackIds := map[];
    }

    function GetStorage(assoc: Assoc): (r: Record)
      reads this
      ensures (assoc !in db || db[assoc] == []) ==> r == EmptyRecord
      ensures assoc in db && db[assoc] != [] ==> r == db[assoc][0]
    {
      StoredRecord(db, assoc)
    }

    function GetUserStorage(user: LocalUser): (r: Record)
      reads this
      ensures UserAssocOf(user) !in db ==> r == EmptyRecord
    {
      GetStorage(UserAssocOf(user))
    }

    /** `getToken`: the token of the user's record, absent when the user has no record. */
    function GetToken(user: LocalUser): (r: Option<string>)
      reads this
      ensures UserAssocOf(user) !in db ==> r == None
      ensures UserAssocOf(user) in db && db[UserAssocOf(user)] != [] ==> r == db[UserAssocOf(user)][0].token
    {
      GetUserStorage(user).token
    }

    function GetLoginStorage(): (r: Record)
      reads this
      ensures r.idMappings.Some?
    {
      LoginRecord(db)
    }

    function GetUserForLoginId(loginId: string, dir: Directory): (r: Option<LocalUser>)
      reads this
      ensures loginId !in MappingsOf(db) ==> r == None
    {
      UserForLoginIdIn(db, loginId, dir)
    }

    /** `saveStorage`: remove whatever is filed under the key, then create the new record. */
    method SaveStorage(assoc: Assoc, rec: Record, now: int)
      modifies this`db
      ensures db == Saved(old(db), assoc, rec, now)
    {
      var newStorage := rec.(updatedAt := Some(now));
      var existing := if assoc in db then db[assoc] else [];
      if |existing| > 0 {
        db := db - {assoc};
      }
      // nothing is left under the key: the created record is the only one
      var created := if assoc in db then db[assoc] else [];
      assert created == [] && created + [newStorage] == [newStorage];
      db := db[assoc := created + [newStorage]];
      assert db == old(db)[assoc := [newStorage]];
    }

    method SaveUserStorage(user: LocalUser, rec: Record, now: int)
      modifies this`db
      ensures db == Saved(old(db), UserAssocOf(user), rec, now)
    {
      SaveStorage(UserAssocOf(user), rec, now);
    }

    method SaveLoginStorage(rec: Record, now: int)
      modifies this`db
      ensures db == Saved(old(db), LoginAssoc, rec, now)
    {
      SaveStorage(LoginAssoc, rec, now);
    }

    /** `setUserForLoginId`: write the entry into the map read back, and save the record. */
    method SetUserForLoginId(user: LocalUser, loginId: string, now: int)
      modifies this`db
      ensures db == WithLoginId(old(db), user, loginId, now)
      ensures MappingsOf(db) == old(MappingsOf(db))[loginId := user.id]
    {
      var loginStorage := GetLoginStorage();
      var mappings := loginStorage.idMappings.value[loginId := user.id];
      loginStorage := loginStorage.(idMappings := Some(mappings));
      SaveLoginStorage(loginStorage, now);
    }

    /** `setUserForSlackId`, recorded as an entry from the user's id to the Slack user id. */
    method SetUserForSlackId(user: LocalUser, slackId: string)
      modifies this`slackIds
      ensures slackIds == old(slackIds)[user.id := slackId]
    {
      slackIds := slackIds[user.id := slackId];
    }
  }
}
