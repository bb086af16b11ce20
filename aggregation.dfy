/**
 * The recipient and token aggregators of functions/index.js:
 * `getAllTokensForCourseStudents` and `getAllTokensForFacultyStudents`, which
 * query the users, skip the admin-like ones and flatten the rest's token
 * documents into registrations. Beside the source's fused loop stand the two
 * stages it fuses: resolving the recipients (`Eligible`) and expanding them
 * into tokens (`Expand`).
 */
module Aggregation {
  import opened JsValues
  import opened Store

  /** The two `where` clauses the aggregators query `users` with. */
  datatype Query = EnrolledIn(courseCode: string) | InFaculty(facultyId: string)

  /** `array-contains` on `enrolledCourses`, `==` on `facultyId`. */
  predicate Matches(u: User, q: Query) {
    match q
    case EnrolledIn(c) => Str(c) in u.enrolledCourses
    case InFaculty(f) => u.facultyId == Str(f)
  }

  /** The documents among `us` that match `q`, in the order of `us`. */
  function Select(db: Directory, us: seq<Uid>, q: Query): (r: seq<Uid>)
    ensures forall u :: u in r <==> u in us && u in db.users && Matches(db.users[u], q)
  {
    if us == [] then []
    else
      var u := us[|us| - 1];
      Select(db, us[..|us| - 1], q) + (if u in db.users && Matches(db.users[u], q) then [u] else [])
  }

  /** The result of `db.collection("users").where(...).get()`, in store order. */
  function Where(db: Directory, q: Query): seq<Uid> {
    Select(db, db.uids, q)
  }

  /** A query over distinct uids returns each matching user once. */
  lemma {:induction false} SelectDistinct(db: Directory, us: seq<Uid>, q: Query)
    requires Distinct(us)
    ensures Distinct(Select(db, us, q))
  {
    if us != [] {
      var init, u := us[..|us| - 1], us[|us| - 1];
      assert Distinct(init) by {
        forall i, j | 0 <= i < j < |init| ensures init[i] != init[j] {
          assert init[i] == us[i] && init[j] == us[j];
        }
      }
      SelectDistinct(db, init, q);
      assert u !in init by {
        forall k | 0 <= k < |init| ensures init[k] != u {
          assert init[k] == us[k];
        }
      }
    }
  }

  /** On a well-formed store a query returns every matching user document
      exactly once, as Firestore does. */
  lemma WhereExactlyOnce(db: Directory, q: Query)
    requires WellFormed(db)
    ensures Distinct(Where(db, q))
    ensures forall u :: u in Where(db, q) <==> u in db.users && Matches(db.users[u], q)
  {
    SelectDistinct(db, db.uids, q);
  }

  /** What the aggregators' loop builds from the matched users: for each
      one that is not admin-like, all of its registrations, in user order and
      then document order. */
  function StudentTokens(db: Directory, us: seq<Uid>): seq<Registration> {
    if us == [] then []
    else
      var u := us[|us| - 1];
      StudentTokens(db, us[..|us| - 1]) + (if IsAdminLike(db, u) then [] else UserTokens(db, u))
  }

  /** The recipient set of a broad scope: the matched users minus the
      admin-like ones. */
  function Eligible(db: Directory, us: seq<Uid>): seq<Uid> {
    if us == [] then []
    else
      var u := us[|us| - 1];
      Eligible(db, us[..|us| - 1]) + (if IsAdminLike(db, u) then [] else [u])
  }

  /** The registrations of the given users, concatenated without
      de-duplication. */
  function Expand(db: Directory, us: seq<Uid>): seq<Registration> {
    if us == [] then [] else Expand(db, us[..|us| - 1]) + UserTokens(db, us[|us| - 1])
  }

  /** The sum of the users' token counts. */
  function TokenTotal(db: Directory, us: seq<Uid>): nat {
    if us == [] then 0 else TokenTotal(db, us[..|us| - 1]) + |TokenDocsOf(db, us[|us| - 1])|
  }

  /** The source's fused loop is the two stages one after the other:
      resolve the recipients, then expand them. */
  lemma {:induction false} StudentTokensFactor(db: Directory, us: seq<Uid>)
    ensures StudentTokens(db, us) == Expand(db, Eligible(db, us))
  {
    if us != [] {
      var init, u := us[..|us| - 1], us[|us| - 1];
      StudentTokensFactor(db, init);
      var e := Eligible(db, init);
      if !IsAdminLike(db, u) {
        assert (e + [u])[..|e|] == e;
        assert Expand(db, e + [u]) == Expand(db, e) + UserTokens(db, u);
      } else {
        assert Eligible(db, us) == e + [];
        assert e + [] == e;
      }
    }
  }

  /** The resolver keeps exactly the matched users that are not admin-like. */
  lemma {:induction false} EligibleMember(db: Directory, us: seq<Uid>, u: Uid)
    ensures u in Eligible(db, us) <==> u in us && !IsAdminLike(db, u)
  {
    if us != [] {
      var init := us[..|us| - 1];
      EligibleMember(db, init, u);
      assert us == init + [us[|us| - 1]];
    }
  }

  /** Expanding drops and merges nothing: the number of registrations is the
      sum of the users' token counts. */
  lemma {:induction false} ExpandLength(db: Directory, us: seq<Uid>)
    ensures |Expand(db, us)| == TokenTotal(db, us)
  {
    if us != [] {
      ExpandLength(db, us[..|us| - 1]);
    }
  }

  /** A registration comes out of the aggregators exactly when its owner is
      one of the matched users, is not admin-like, and owns it. */
  lemma {:induction false} StudentTokensMember(db: Directory, us: seq<Uid>, r: Registration)
    ensures r in StudentTokens(db, us) <==>
      r.ref.uid in us && !IsAdminLike(db, r.ref.uid) && r in UserTokens(db, r.ref.uid)
  {
    if us != [] {
      var init, u := us[..|us| - 1], us[|us| - 1];
      StudentTokensMember(db, init, r);
      assert us == init + [u];
      RegsMember(u, TokenDocsOf(db, u), r);
    }
  }

  /** The loop shared by `getAllTokensForCourseStudents` and
      `getAllTokensForFacultyStudents`: skip admin-like users, push every
      token document of the others. */
  method CollectStudentTokens(db: Directory, members: seq<Uid>) returns (regs: seq<Registration>)
    ensures regs == StudentTokens(db, members)
  {
    regs := [];
    for n := 0 to |members|
      invariant regs == StudentTokens(db, members[..n])
    {
      var u := members[n];
      assert members[..n + 1][..n] == members[..n];
      if IsAdminLike(db, u) {
        continue;
      }
      regs := PushDocs(regs, u, TokenDocsOf(db, u));
    }
    assert members[..|members|] == members;
  }

  /** `t.docs.forEach((d) => tokenRefs.push({ token: d.id, ref: d.ref }))` */
  method PushDocs(regs: seq<Registration>, u: Uid, docs: seq<TokenDoc>) returns (regs': seq<Registration>)
    ensures regs' == regs + Regs(u, docs)
  {
    regs' := regs;
    for k := 0 to |docs|
      invariant regs' == regs + Regs(u, docs[..k])
    {
      assert docs[..k + 1][..k] == docs[..k];
      regs' := regs' + [Registration(docs[k].id, Ref(u, docs[k].id))];
    }
    assert docs[..|docs|] == docs;
  }

  /** `getAllTokensForCourseStudents(courseCode)`: every registration of every
      enrolled user that is not admin-like, and nothing else; as many as those
      users have token documents. */
  method GetAllTokensForCourseStudents(db: Directory, courseCode: string) returns (regs: seq<Registration>)
    ensures regs == Expand(db, Eligible(db, Where(db, EnrolledIn(courseCode))))
    ensures |regs| == TokenTotal(db, Eligible(db, Where(db, EnrolledIn(courseCode))))
    ensures forall r :: r in regs <==>
      r.ref.uid in Where(db, EnrolledIn(courseCode)) && !IsAdminLike(db, r.ref.uid) && r in UserTokens(db, r.ref.uid)
  {
    var members := Where(db, EnrolledIn(courseCode));
    regs := CollectStudentTokens(db, members);
    StudentTokensFactor(db, members);
    ExpandLength(db, Eligible(db, members));
    forall r ensures r in regs <==> r.ref.uid in members && !IsAdminLike(db, r.ref.uid) && r in UserTokens(db, r.ref.uid) {
      StudentTokensMember(db, members, r);
    }
  }

  /** `getAllTokensForFacultyStudents(facultyId)`: the same over the users
      whose `facultyId` equals the given one. */
  method GetAllTokensForFacultyStudents(db: Directory, facultyId: string) returns (regs: seq<Registration>)
    ensures regs == Expand(db, Eligible(db, Where(db, InFaculty(facultyId))))
    ensures |regs| == TokenTotal(db, Eligible(db, Where(db, InFaculty(facultyId))))
    ensures forall r :: r in regs <==>
      r.ref.uid in Where(db, InFaculty(facultyId)) && !IsAdminLike(db, r.ref.uid) && r in UserTokens(db, r.ref.uid)
  {
    var members := Where(db, InFaculty(facultyId));
    regs := CollectStudentTokens(db, members);
    StudentTokensFactor(db, members);
    ExpandLength(db, Eligible(db, members));
    forall r ensures r in regs <==> r.ref.uid in members && !IsAdminLike(db, r.ref.uid) && r in UserTokens(db, r.ref.uid) {
      StudentTokensMember(db, members, r);
    }
  }

  /** A course with three enrolled users, one of them an admin, the other two
      with two tokens each: two recipients and four registrations. */
  lemma CourseScenario()
    ensures var db := ScenarioDirectory();
      var members := Where(db, EnrolledIn("CS101"));
      |Eligible(db, members)| == 2 && |StudentTokens(db, members)| == 4
  {
    ScenarioMembers();
    ScenarioRoles();
    ScenarioEligible();
    ScenarioTokens();
  }

  /** The scenario's store lists each of its three user documents once. */
  lemma ScenarioWellFormed()
    ensures WellFormed(ScenarioDirectory())
  {
    var db := ScenarioDirectory();
    assert db.uids == ["s1", "s2", "dean"];
    assert db.users.Keys == {"s1", "s2", "dean"};
  }

  /** Only the dean holds a role record, and it is an admin one. */
  lemma ScenarioRoles()
    ensures var db := ScenarioDirectory();
      IsAdminLike(db, "dean") && !IsAdminLike(db, "s1") && !IsAdminLike(db, "s2")
  {
  }

  lemma ScenarioEligible()
    requires var db := ScenarioDirectory();
      IsAdminLike(db, "dean") && !IsAdminLike(db, "s1") && !IsAdminLike(db, "s2")
    ensures Eligible(ScenarioDirectory(), ["s1", "s2", "dean"]) == ["s1", "s2"]
  {
    var db := ScenarioDirectory();
    assert Eligible(db, ["s1"]) == ["s1"] by {
      assert ["s1"][..0] == [];
    }
    assert Eligible(db, ["s1", "s2"]) == ["s1", "s2"] by {
      assert ["s1", "s2"][..1] == ["s1"];
    }
    assert ["s1", "s2", "dean"][..2] == ["s1", "s2"];
  }

  lemma ScenarioTokens()
    requires var db := ScenarioDirectory();
      IsAdminLike(db, "dean") && !IsAdminLike(db, "s1") && !IsAdminLike(db, "s2")
    ensures |StudentTokens(ScenarioDirectory(), ["s1", "s2", "dean"])| == 4
  {
    var db := ScenarioDirectory();
    assert |UserTokens(db, "s1")| == 2 && |UserTokens(db, "s2")| == 2;
    assert |StudentTokens(db, ["s1"])| == 2 by {
      assert ["s1"][..0] == [];
    }
    assert |StudentTokens(db, ["s1", "s2"])| == 4 by {
      assert ["s1", "s2"][..1] == ["s1"];
    }
    assert ["s1", "s2", "dean"][..2] == ["s1", "s2"];
  }

  /** All three users of the scenario are enrolled, in store order. */
  lemma ScenarioMembers()
    ensures Where(ScenarioDirectory(), EnrolledIn("CS101")) == ["s1", "s2", "dean"]
  {
    ScenarioMatches();
    ScenarioSelect();
    assert ScenarioDirectory().uids == ["s1", "s2", "dean"];
  }

  lemma ScenarioMatches()
    ensures var db := ScenarioDirectory();
      "s1" in db.users && "s2" in db.users && "dean" in db.users &&
      Matches(db.users["s1"], EnrolledIn("CS101")) && Matches(db.users["s2"], EnrolledIn("CS101")) &&
      Matches(db.users["dean"], EnrolledIn("CS101"))
  {
  }

  lemma ScenarioSelect()
    requires var db := ScenarioDirectory();
      "s1" in db.users && "s2" in db.users && "dean" in db.users &&
      Matches(db.users["s1"], EnrolledIn("CS101")) && Matches(db.users["s2"], EnrolledIn("CS101")) &&
      Matches(db.users["dean"], EnrolledIn("CS101"))
    ensures Select(ScenarioDirectory(), ["s1", "s2", "dean"], EnrolledIn("CS101")) == ["s1", "s2", "dean"]
  {
    var db := ScenarioDirectory();
    var q := EnrolledIn("CS101");
    SelectSnoc(db, [], "s1", q);
    assert [] + ["s1"] == ["s1"];
    SelectSnoc(db, ["s1"], "s2", q);
    assert ["s1"] + ["s2"] == ["s1", "s2"];
    SelectSnoc(db, ["s1", "s2"], "dean", q);
    assert ["s1", "s2"] + ["dean"] == ["s1", "s2", "dean"];
  }

  lemma SelectSnoc(db: Directory, us: seq<Uid>, u: Uid, q: Query)
    ensures Select(db, us + [u], q) == Select(db, us, q) + (if u in db.users && Matches(db.users[u], q) then [u] else [])
  {
    assert (us + [u])[..|us|] == us;
  }

  function ScenarioDirectory(): Directory {
    var enrolled := [Str("CS101")];
    Directory(
      ["s1", "s2", "dean"],
      map["s1" := User(enrolled, Str("eng")), "s2" := User(enrolled, Str("eng")), "dean" := User(enrolled, Str("eng"))],
      map[
        "s1" := [TokenDoc("t1", Undefined), TokenDoc("t2", Undefined)],
        "s2" := [TokenDoc("t3", Undefined), TokenDoc("t4", Undefined)],
        "dean" := [TokenDoc("t5", Undefined), TokenDoc("t6", Undefined)]],
      map["dean" := RoleRecord(Str("admin"), Undefined, Undefined, Undefined)],
      map[])
  }
}
