/**
 * The Firestore collections the fan-out reads, as one value: `users/{uid}`,
 * the `users/{uid}/fcmTokens` sub-collections, `roles/{uid}` and `courses/{id}`;
 * the role predicate `isAdminLike`; `getAllTokensForUser`; and what deleting
 * token documents does to the store.
 */
module Store {
  import opened JsValues
  import opened Optional

  type Uid = string

  /** The address of one `users/{uid}/fcmTokens/{docId}` document: the
      handle a registration is deleted through. */
  datatype Ref = Ref(uid: Uid, docId: string)

  /** One token document: its id (the token, as functions/index.js reads
      it) and the value of its `token` field (as functions/src/index.ts reads it). */
  datatype TokenDoc = TokenDoc(id: string, token: JsValue)

  /** The fields of a `users/{uid}` document that queries filter on. */
  datatype User = User(enrolledCourses: seq<JsValue>, facultyId: JsValue)

  /** The fields of a `roles/{uid}` document that `isAdminLike` reads;
      `superAdmin` is the document's `super_admin` field. */
  datatype RoleRecord = RoleRecord(role: JsValue, admin: JsValue, level: JsValue, superAdmin: JsValue)

  /** The fields of a `courses/{id}` document the announcement handler reads. */
  datatype CourseDoc = CourseDoc(code: JsValue, courseCode: JsValue)

  /** `{ token, ref }` as the aggregators build it. */
  datatype Registration = Registration(token: string, ref: Ref)

  /** The store. `uids` lists the user documents in the order queries
      return them. `fcmTokens` holds the `users/{uid}/fcmTokens`
      sub-collections in store order; as in Firestore, a sub-collection does
      not need its parent `users/{uid}` document to exist. */
  datatype Directory = Directory(
    uids: seq<Uid>,
    users: map<Uid, User>,
    fcmTokens: map<Uid, seq<TokenDoc>>,
    roles: map<Uid, RoleRecord>,
    courses: map<string, CourseDoc>)

  /** No uid listed twice. */
  predicate Distinct(us: seq<Uid>) {
    forall i, j :: 0 <= i < j < |us| ==> us[i] != us[j]
  }

  /** A store as Firestore keeps it: `uids` lists every user document
      exactly once, and nothing else. */
  predicate WellFormed(db: Directory) {
    Distinct(db.uids) && (forall u :: u in db.uids ==> u in db.users) && (forall u :: u in db.users ==> u in db.uids)
  }

  /** The role record's own test, the union of the five legacy encodings. */
  predicate RoleAdminLike(r: RoleRecord) {
    r.role == Str("admin") ||
    r.role == Str("superAdmin") ||
    r.admin == Bool(true) ||
    r.level == Str("super") ||
    r.superAdmin == Bool(true)
  }

  /** `isAdminLike(uid)`: false when there is no role record. */
  predicate IsAdminLike(db: Directory, uid: Uid) {
    uid in db.roles && RoleAdminLike(db.roles[uid])
  }

  /** The encodings of "admin or higher" that records written at different
      times use. */
  datatype Encoding = RoleAdmin | RoleSuperAdmin | AdminFlag | SuperLevel | LegacySuperAdmin

  const AllEncodings: seq<Encoding> := [RoleAdmin, RoleSuperAdmin, AdminFlag, SuperLevel, LegacySuperAdmin]

  /** Whether a record carries one encoding, compared as `===` does: no
      coercion between strings, booleans and numbers. */
  predicate Holds(e: Encoding, r: RoleRecord) {
    match e
    case RoleAdmin => r.role.Str? && r.role.s == "admin"
    case RoleSuperAdmin => r.role.Str? && r.role.s == "superAdmin"
    case AdminFlag => r.admin.Bool? && r.admin.b
    case SuperLevel => r.level.Str? && r.level.s == "super"
    case LegacySuperAdmin => r.superAdmin.Bool? && r.superAdmin.b
  }

  /** `isAdminLike` is false without a role record, and otherwise true
      exactly when the record carries at least one of the encodings. */
  lemma AdminLikeIffSomeEncoding(db: Directory, uid: Uid)
    ensures uid !in db.roles ==> !IsAdminLike(db, uid)
    ensures uid in db.roles ==>
      (IsAdminLike(db, uid) <==> exists i :: 0 <= i < |AllEncodings| && Holds(AllEncodings[i], db.roles[uid]))
  {
    if uid in db.roles {
      var r := db.roles[uid];
      if RoleAdminLike(r) {
        var i := if r.role == Str("admin") then 0
          else if r.role == Str("superAdmin") then 1
          else if r.admin == Bool(true) then 2
          else if r.level == Str("super") then 3
          else 4;
        assert Holds(AllEncodings[i], r);
      }
    }
  }

  /** Look-alike values do not count: strict equality rejects a capitalised
      role, the string "true" and the number 1. */
  lemma AdminLikeIsStrict()
    ensures !RoleAdminLike(RoleRecord(Str("Admin"), Str("true"), Str("Super"), Num(1)))
    ensures !RoleAdminLike(RoleRecord(Undefined, Num(1), Null, Str("true")))
  {
  }

  /** The token documents under `users/{uid}/fcmTokens`, whether or not
      `users/{uid}` itself exists. */
  function TokenDocsOf(db: Directory, uid: Uid): seq<TokenDoc> {
    if uid in db.fcmTokens then db.fcmTokens[uid] else []
  }

  /** `snap.docs.map(d => ({ token: d.id, ref: d.ref }))` */
  function Regs(uid: Uid, docs: seq<TokenDoc>): (r: seq<Registration>)
    ensures |r| == |docs|
    ensures forall i :: 0 <= i < |docs| ==> r[i] == Registration(docs[i].id, Ref(uid, docs[i].id))
  {
    if docs == [] then [] else Regs(uid, docs[..|docs| - 1]) + [Registration(docs[|docs| - 1].id, Ref(uid, docs[|docs| - 1].id))]
  }

  /** `getAllTokensForUser(uid)`: one registration per token document of the
      user, in store order, with the document id as token and the document
      as deletion handle; no role check and no filter. */
  function UserTokens(db: Directory, uid: Uid): (r: seq<Registration>)
    ensures |r| == |TokenDocsOf(db, uid)|
    ensures forall i :: 0 <= i < |r| ==>
      r[i].token == TokenDocsOf(db, uid)[i].id && r[i].ref == Ref(uid, TokenDocsOf(db, uid)[i].id)
  {
    Regs(uid, TokenDocsOf(db, uid))
  }

  /** The personal lookup ignores the role collection altogether, and reads
      the `fcmTokens` sub-collection whether or not `users/{uid}` exists. */
  lemma UserTokensIgnoreRoles(db: Directory, uid: Uid, roles: map<Uid, RoleRecord>, users: map<Uid, User>)
    ensures UserTokens(db.(roles := roles), uid) == UserTokens(db, uid)
    ensures UserTokens(db.(users := users), uid) == UserTokens(db, uid)
  {
  }

  /** The token documents of `uid` that survive deleting `dels`. */
  function Keep(uid: Uid, docs: seq<TokenDoc>, dels: set<Ref>): (r: seq<TokenDoc>)
    ensures |r| <= |docs|
  {
    if docs == [] then []
    else (if Ref(uid, docs[0].id) in dels then [] else [docs[0]]) + Keep(uid, docs[1..], dels)
  }

  lemma {:induction false} KeepMember(uid: Uid, docs: seq<TokenDoc>, dels: set<Ref>, d: TokenDoc)
    ensures d in Keep(uid, docs, dels) <==> d in docs && Ref(uid, d.id) !in dels
  {
    if docs != [] {
      KeepMember(uid, docs[1..], dels, d);
      assert docs == [docs[0]] + docs[1..];
    }
  }

  /** The store after the token documents `dels` are deleted (deleting a
      document that does not exist changes nothing). */
  function Prune(db: Directory, dels: set<Ref>): (r: Directory)
    ensures r.uids == db.uids && r.users == db.users && r.roles == db.roles && r.courses == db.courses
    ensures r.fcmTokens.Keys == db.fcmTokens.Keys
    ensures WellFormed(db) ==> WellFormed(r)
  {
    db.(fcmTokens := map u | u in db.fcmTokens :: Keep(u, db.fcmTokens[u], dels))
  }

  lemma {:induction false} KeepNothing(uid: Uid, docs: seq<TokenDoc>)
    ensures Keep(uid, docs, {}) == docs
  {
    if docs != [] {
      KeepNothing(uid, docs[1..]);
    }
  }

  lemma {:induction false} KeepCompose(uid: Uid, docs: seq<TokenDoc>, a: set<Ref>, b: set<Ref>)
    ensures Keep(uid, Keep(uid, docs, a), b) == Keep(uid, docs, a + b)
  {
    if docs != [] {
      KeepCompose(uid, docs[1..], a, b);
      var k := Keep(uid, docs[1..], a);
      if Ref(uid, docs[0].id) in a {
        assert Keep(uid, docs, a) == k;
      } else {
        assert Keep(uid, docs, a) == [docs[0]] + k;
        assert ([docs[0]] + k)[1..] == k;
        assert Keep(uid, [docs[0]] + k, b) == (if Ref(uid, docs[0].id) in b then [] else [docs[0]]) + Keep(uid, k, b);
      }
    }
  }

  /** Deleting nothing leaves the store as it was. */
  lemma PruneNothing(db: Directory)
    ensures Prune(db, {}) == db
  {
    forall u | u in db.fcmTokens ensures Prune(db, {}).fcmTokens[u] == db.fcmTokens[u] {
      KeepNothing(u, db.fcmTokens[u]);
    }
  }

  /** Deleting `a` and then `b` is deleting `a + b`. */
  lemma PruneCompose(db: Directory, a: set<Ref>, b: set<Ref>)
    ensures Prune(Prune(db, a), b) == Prune(db, a + b)
  {
    forall u | u in db.fcmTokens ensures Prune(Prune(db, a), b).fcmTokens[u] == Prune(db, a + b).fcmTokens[u] {
      KeepCompose(u, db.fcmTokens[u], a, b);
    }
  }

  /** A registration built from a user's token documents is that user's,
      carries the document id as token, and exists for every document. */
  lemma {:induction false} RegsMember(uid: Uid, docs: seq<TokenDoc>, r: Registration)
    ensures r in Regs(uid, docs) <==> r.ref == Ref(uid, r.token) && exists d :: d in docs && d.id == r.token
  {
    if docs != [] {
      var init := docs[..|docs| - 1];
      RegsMember(uid, init, r);
      assert docs == init + [docs[|docs| - 1]];
    }
  }

  /** Only the deleted registrations disappear: a registration of `uid` is
      returned after the deletions exactly when it was returned before and its
      handle was not deleted. */
  lemma PrunedTokens(db: Directory, dels: set<Ref>, uid: Uid, r: Registration)
    ensures r in UserTokens(Prune(db, dels), uid) <==> r in UserTokens(db, uid) && r.ref !in dels
  {
    var docs := TokenDocsOf(db, uid);
    var kept := TokenDocsOf(Prune(db, dels), uid);
    RegsMember(uid, docs, r);
    RegsMember(uid, kept, r);
    if uid in db.fcmTokens {
      assert kept == Keep(uid, docs, dels);
      forall d ensures d in kept <==> d in docs && Ref(uid, d.id) !in dels {
        KeepMember(uid, docs, dels, d);
      }
    }
  }
}
