/** The user entity and the user collection (`UserModel`). The role type is
    the closed set `"buyer" | "vendor" | "mod" | "admin"`; the collection is a
    map from email to user record, with the two queries the authentication
    handlers issue: `findOne({ email })` and `create(doc)`. */
module Users {
  import opened Wrappers
  import opened Js

  datatype Role = Buyer | Vendor | Mod | Admin
  {
    /** The string by which the role is stored, signed into tokens and compared. */
    function Name(): string
    {
      match this
      case Buyer => "buyer"
      case Vendor => "vendor"
      case Mod => "mod"
      case Admin => "admin"
    }
  }

  /** The role a JavaScript value names, if it names one. */
  function RoleOf(v: JsValue): (r: Option<Role>)
    ensures r.Some? ==> v == Str(r.value.Name())
    ensures forall role: Role :: v == Str(role.Name()) ==> r == Some(role)
  {
    if v == Str("buyer") then Some(Buyer)
    else if v == Str("vendor") then Some(Vendor)
    else if v == Str("mod") then Some(Mod)
    else if v == Str("admin") then Some(Admin)
    else None
  }

  /** Distinct roles have distinct names. */
  lemma NameInjective(r1: Role, r2: Role)
    requires r1.Name() == r2.Name()
    ensures r1 == r2
  {
    assert RoleOf(Str(r1.Name())) == Some(r1);
  }

  /** A user document as the handlers write and read it. `password` and
      `passwordHash` are both kept because the registration handler writes the
      former while the login handler reads the latter. `id` stands for `_id`. */
  datatype User = User(
    id: nat,
    firstName: JsValue,
    lastName: JsValue,
    email: JsValue,
    password: JsValue,
    passwordHash: JsValue,
    role: Role)

  /** The collection's contents: users by email, the next `_id` to assign,
      and whether the database answers queries at all. */
  datatype Db = Db(users: map<JsValue, User>, nextId: nat, reachable: bool)

  /** Every record is filed under its own email and carries an `_id` that is
      below `nextId` and unique in the collection. */
  ghost predicate WellFormed(db: Db)
  {
    && (forall e :: e in db.users ==> db.users[e].email == e && db.users[e].id < db.nextId)
    && (forall e1, e2 :: e1 in db.users && e2 in db.users && e1 != e2 ==> db.users[e1].id != db.users[e2].id)
  }

  /** The document `doc` as `create` stores it: with a fresh `_id`. */
  function Stamped(db: Db, doc: User): User
  {
    doc.(id := db.nextId)
  }

  /** The collection after `create(doc)` succeeds. */
  function Insert(db: Db, doc: User): Db
  {
    Db(db.users[doc.email := Stamped(db, doc)], db.nextId + 1, db.reachable)
  }

  /** Inserting a new email keeps the collection well formed, adds exactly
      that one record and leaves every other record as it was. */
  lemma InsertKeepsWellFormed(db: Db, doc: User)
    requires WellFormed(db)
    requires doc.email !in db.users
    ensures WellFormed(Insert(db, doc))
    ensures Insert(db, doc).users.Keys == db.users.Keys + {doc.email}
    ensures |Insert(db, doc).users| == |db.users| + 1
    ensures forall e :: e in db.users ==> Insert(db, doc).users[e] == db.users[e]
  {
    var db' := Insert(db, doc);
    assert db'.users.Keys == db.users.Keys + {doc.email};
    forall e1, e2 | e1 in db'.users && e2 in db'.users && e1 != e2
      ensures db'.users[e1].id != db'.users[e2].id
    {
      if e1 == doc.email {
        assert db.users[e2].id < db.nextId;
      } else if e2 == doc.email {
        assert db.users[e1].id < db.nextId;
      }
    }
  }

  /** The user collection, updated in place by `create`. */
  class UserStore {
    var users: map<JsValue, User>
    var nextId: nat
    var reachable: bool
    /** The collection's acceptance of a document (schema validation and
        storage); `create` throws on a document it rejects. */
    const accepts: User -> bool

    function State(): Db
      reads this
    {
      Db(users, nextId, reachable)
    }

    ghost predicate Valid()
      reads this
    {
      WellFormed(State())
    }

    constructor (accepts: User -> bool)
      ensures Valid()
      ensures State() == Db(map[], 0, true) && this.accepts == accepts
    {
      users := map[];
      nextId := 0;
      reachable := true;
      this.accepts := accepts;
    }

    /** `findOne({ email })`: throws when the database is unreachable,
        otherwise yields the record filed under `email`, if any. */
    method FindOne(email: JsValue) returns (r: Result<Option<User>>)
      ensures r.Failure? <==> !reachable
      ensures r.Success? ==> (r.value.Some? <==> email in users)
      ensures r.Success? && r.value.Some? ==> r.value.value == users[email]
      ensures r.Success? && r.value.Some? && Valid() ==> r.value.value.email == email && r.value.value.id < nextId
    {
      if !reachable {
        return Failure("database unreachable");
      }
      if email in users {
        return Success(Some(users[email]));
      }
      return Success(None);
    }

    /** `create(doc)`: throws when the database is unreachable, when the email
        is already taken (the unique index) or when the document is rejected;
        otherwise stores the document under a fresh `_id` and returns it. */
    method Create(doc: User) returns (created: Option<User>)
      requires Valid()
      modifies this
      ensures Valid()
      ensures created.Some? <==> old(reachable) && doc.email !in old(users) && accepts(Stamped(old(State()), doc))
      ensures created.Some? ==> created.value == Stamped(old(State()), doc) && State() == Insert(old(State()), doc)
      ensures created.None? ==> State() == old(State())
    {
      if !reachable || doc.email in users {
        return None;
      }
      var stamped := doc.(id := nextId);
      if !accepts(stamped) {
        return None;
      }
      InsertKeepsWellFormed(State(), doc);
      users := users[doc.email := stamped];
      nextId := nextId + 1;
      return Some(stamped);
    }
  }
}
