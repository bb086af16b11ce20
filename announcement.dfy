/**
 * `notifyCourseAnnouncement` of functions/src/index.ts, run when a
 * `courses/{courseId}/announcements/{announcementId}` document is created:
 * it picks a title and a body with `??`, resolves the key users enrol under
 * from the course document, reads the `token` field of every token document
 * of every enrolled user, and sends the tokens in slices of 500, without
 * reading the responses and without deleting anything.
 */
module Announcements {
  import opened Optional
  import opened JsValues
  import opened Store
  import opened Aggregation
  import opened Batching
  import opened Dispatch

  /** The fields of an announcement document the handler reads. */
  datatype AnnouncementDoc = AnnouncementDoc(title: JsValue, body: JsValue, message: JsValue, text: JsValue)

  const DefaultTitle: string := "New announcement"
  const DefaultBody: string := "Open UniGO to view."

  /** `vs[0] ?? vs[1] ?? ... ?? d`: the first value that is neither null nor
      undefined, else `d`. */
  function FirstPresent(vs: seq<JsValue>, d: JsValue): JsValue {
    if vs == [] then d else Coalesce(vs[0], FirstPresent(vs[1..], d))
  }

  /** `data.title ?? "New announcement"` */
  function NotifTitle(a: AnnouncementDoc): JsValue {
    Coalesce(a.title, Str(DefaultTitle))
  }

  /** `data.body ?? data.message ?? data.text ?? "Open UniGO to view."` */
  function NotifBody(a: AnnouncementDoc): JsValue {
    Coalesce(a.body, Coalesce(a.message, Coalesce(a.text, Str(DefaultBody))))
  }

  /** A `??` chain yields the default exactly when every value is nullish,
      and otherwise the first value that is not, whatever its type or
      truthiness. */
  lemma {:induction false} FirstPresentSpec(vs: seq<JsValue>, d: JsValue)
    ensures (forall i :: 0 <= i < |vs| ==> Nullish(vs[i])) ==> FirstPresent(vs, d) == d
    ensures forall k :: 0 <= k < |vs| && !Nullish(vs[k]) && (forall i :: 0 <= i < k ==> Nullish(vs[i])) ==>
      FirstPresent(vs, d) == vs[k]
  {
    if vs != [] {
      FirstPresentSpec(vs[1..], d);
      forall k | 0 <= k < |vs| && !Nullish(vs[k]) && (forall i :: 0 <= i < k ==> Nullish(vs[i]))
        ensures FirstPresent(vs, d) == vs[k]
      {
        if k > 0 {
          assert Nullish(vs[0]);
          assert forall i :: 0 <= i < k - 1 ==> vs[1..][i] == vs[i + 1];
        }
      }
      if forall i :: 0 <= i < |vs| ==> Nullish(vs[i]) {
        assert Nullish(vs[0]);
      }
    }
  }

  /** The title and the body are the `??` chains over the document's fields. */
  lemma NotifFieldsAreChains(a: AnnouncementDoc)
    ensures NotifTitle(a) == FirstPresent([a.title], Str(DefaultTitle))
    ensures NotifBody(a) == FirstPresent([a.body, a.message, a.text], Str(DefaultBody))
  {
    var d := Str(DefaultBody);
    assert FirstPresent([a.text], d) == Coalesce(a.text, d) by {
      assert [a.text][1..] == [];
    }
    assert FirstPresent([a.message, a.text], d) == Coalesce(a.message, Coalesce(a.text, d)) by {
      assert [a.message, a.text][1..] == [a.text];
    }
    assert [a.body, a.message, a.text][1..] == [a.message, a.text];
    assert [a.title][1..] == [];
  }

  /** `??` is not `||`: an empty title or body, a zero or `false`, is sent
      as it is; the body falls through to `message` only when `body` is null
      or undefined. */
  lemma NullishKeepsFalsy(a: AnnouncementDoc)
    ensures a.title == Str("") ==> NotifTitle(a) == Str("")
    ensures a.body.Str? || a.body.Num? || a.body.Bool? ==> NotifBody(a) == a.body
    ensures Nullish(a.body) && !Nullish(a.message) ==> NotifBody(a) == a.message
    ensures Nullish(a.body) && Nullish(a.message) && Nullish(a.text) ==> NotifBody(a) == Str(DefaultBody)
  {
  }

  // ---------- the course key ----------

  /** `db.collection("courses").doc(courseId).get()` */
  function CourseOf(db: Directory, courseId: string): Option<CourseDoc> {
    if courseId in db.courses then Some(db.courses[courseId]) else None
  }

  /** The course key: the trimmed `code ?? courseCode` of the course
      document when that is a string with a character other than white
      space, and the document id otherwise. */
  function CourseKey(courseId: string, course: Option<CourseDoc>): string {
    match course
    case None => courseId
    case Some(c) =>
      var maybeCode := Coalesce(c.code, c.courseCode);
      if maybeCode.Str? && |Trim(maybeCode.s)| > 0 then Trim(maybeCode.s) else courseId
  }

  /** Non-empty, its own trim, and without white space at either end. */
  predicate Trimmed(k: string) {
    k != "" && Trim(k) == k && !IsJsSpace(k[0]) && !IsJsSpace(k[|k| - 1])
  }

  lemma TrimmedKey(s: string)
    requires Trim(s) != []
    ensures Trimmed(Trim(s))
  {
    TrimIdempotent(s);
    TrimShape(s);
  }

  /** A key other than the course id comes from the course document: it is
      the trimmed `code` when that is a string, the trimmed `courseCode` only
      when `code` is null or undefined, and it is non-empty and without white
      space at either end. */
  lemma CourseKeyIsTrimmed(courseId: string, course: Option<CourseDoc>)
    ensures var key := CourseKey(courseId, course);
      key != courseId ==>
        course.Some? && Trimmed(key) &&
        ((course.value.code.Str? && key == Trim(course.value.code.s)) ||
         (Nullish(course.value.code) && course.value.courseCode.Str? && key == Trim(course.value.courseCode.s)))
  {
    if course.Some? {
      var c := course.value;
      var maybeCode := Coalesce(c.code, c.courseCode);
      if maybeCode.Str? && Trim(maybeCode.s) != [] {
        TrimmedKey(maybeCode.s);
        assert CourseKey(courseId, course) == Trim(maybeCode.s);
        if Nullish(c.code) {
          assert maybeCode == c.courseCode;
        } else {
          assert maybeCode == c.code;
        }
      } else {
        assert CourseKey(courseId, course) == courseId;
      }
    }
  }

  /** `code` shadows `courseCode` whenever it is present at all: a `code`
      that is a number, or a string of white space only, makes the key the
      course id even when `courseCode` is a usable string. */
  lemma CodeShadowsCourseCode(courseId: string, c: CourseDoc)
    requires !Nullish(c.code)
    requires !c.code.Str? || forall i :: 0 <= i < |c.code.s| ==> IsJsSpace(c.code.s[i])
    ensures CourseKey(courseId, Some(c)) == courseId
  {
    if c.code.Str? {
      TrimEmptyIff(c.code.s);
    }
  }

  /** `courseCode` is used when `code` is null or undefined. */
  lemma CourseCodeFallback(courseId: string, c: CourseDoc, s: string)
    requires Nullish(c.code) && c.courseCode == Str(s)
    requires exists i :: 0 <= i < |s| && !IsJsSpace(s[i])
    ensures CourseKey(courseId, Some(c)) == Trim(s)
  {
    TrimEmptyIff(s);
  }

  /** A `code` that is a string with a character other than white space is
      the key, trimmed, whatever `courseCode` holds. */
  lemma CodeUsed(courseId: string, c: CourseDoc, s: string)
    requires c.code == Str(s)
    requires exists i :: 0 <= i < |s| && !IsJsSpace(s[i])
    ensures CourseKey(courseId, Some(c)) == Trim(s)
  {
    TrimEmptyIff(s);
  }

  /** There is no course document: the key is the course id. */
  lemma NoCourseDocKeepsId(courseId: string)
    ensures CourseKey(courseId, None) == courseId
  {
  }

  // ---------- the tokens ----------

  /** `typeof token === "string" && token.length > 0` */
  predicate Usable(v: JsValue) {
    v.Str? && |v.s| > 0
  }

  /** The usable `token` fields of some token documents, in order. */
  function DocTokens(docs: seq<TokenDoc>): seq<string> {
    if docs == [] then []
    else DocTokens(docs[..|docs| - 1]) + (if Usable(docs[|docs| - 1].token) then [docs[|docs| - 1].token.s] else [])
  }

  /** What the handler's token loop collects: for every matched user in order,
      the usable `token` fields of its token documents. No role check, no
      de-duplication. */
  function AnnouncementTokens(db: Directory, us: seq<Uid>): seq<string> {
    if us == [] then [] else AnnouncementTokens(db, us[..|us| - 1]) + DocTokens(TokenDocsOf(db, us[|us| - 1]))
  }

  lemma {:induction false} DocTokensMember(docs: seq<TokenDoc>, t: string)
    ensures t in DocTokens(docs) <==> t != "" && exists d :: d in docs && d.token == Str(t)
  {
    if docs != [] {
      var init := docs[..|docs| - 1];
      DocTokensMember(init, t);
      assert docs == init + [docs[|docs| - 1]];
    }
  }

  lemma {:induction false} DocTokensLength(docs: seq<TokenDoc>)
    ensures |DocTokens(docs)| <= |docs|
  {
    if docs != [] {
      DocTokensLength(docs[..|docs| - 1]);
    }
  }

  /** Whether one of the user's token documents has `t` in its `token` field. */
  ghost predicate HasTokenField(db: Directory, u: Uid, t: string) {
    exists d :: d in TokenDocsOf(db, u) && d.token == Str(t)
  }

  /** A token is sent exactly when it is non-empty and sits in the `token`
      field of a token document of a matched user; admin-like users are
      not skipped. */
  lemma {:induction false} AnnouncementTokensMember(db: Directory, us: seq<Uid>, t: string)
    ensures t in AnnouncementTokens(db, us) <==> t != "" && exists u :: u in us && HasTokenField(db, u, t)
  {
    if us != [] {
      var init, u := us[..|us| - 1], us[|us| - 1];
      AnnouncementTokensMember(db, init, t);
      DocTokensMember(TokenDocsOf(db, u), t);
      assert us == init + [u];
      if t in AnnouncementTokens(db, us) {
        if t in AnnouncementTokens(db, init) {
          var w :| w in init && HasTokenField(db, w, t);
          assert w in us;
        } else {
          var d :| d in TokenDocsOf(db, u) && d.token == Str(t);
          assert HasTokenField(db, u, t);
        }
      }
      if t != "" && exists w :: w in us && HasTokenField(db, w, t) {
        var w :| w in us && HasTokenField(db, w, t);
        if w != u {
          assert w in init;
        }
      }
    }
  }

  /** Collecting over two runs of token documents is collecting over each
      in turn: order is kept and a token repeated in both runs is kept twice. */
  lemma {:induction false} DocTokensAppend(xs: seq<TokenDoc>, ys: seq<TokenDoc>)
    ensures DocTokens(xs + ys) == DocTokens(xs) + DocTokens(ys)
  {
    if ys == [] {
      assert xs + ys == xs;
    } else {
      var init, d := ys[..|ys| - 1], ys[|ys| - 1];
      var zs := xs + ys;
      assert zs[..|zs| - 1] == xs + init && zs[|zs| - 1] == d;
      DocTokensAppend(xs, init);
      AppendAssoc(DocTokens(xs), DocTokens(init), DocTokens([d]));
    }
  }

  /** One token document contributes its `token` string when that is usable,
      and nothing otherwise. */
  lemma DocTokensSingle(d: TokenDoc)
    ensures DocTokens([d]) == (if Usable(d.token) then [d.token.s] else [])
  {
    assert [d][..0] == [];
  }

  /** The number of token documents whose `token` field is usable. */
  function UsableCount(docs: seq<TokenDoc>): nat {
    if docs == [] then 0 else (if Usable(docs[0].token) then 1 else 0) + UsableCount(docs[1..])
  }

  /** The number of usable token documents over a list of users, a user
      listed twice counted twice. */
  function UsableTotal(db: Directory, us: seq<Uid>): nat {
    if us == [] then 0 else UsableCount(TokenDocsOf(db, us[0])) + UsableTotal(db, us[1..])
  }

  /** Exactly one token per usable token document, none dropped as a
      repeat. */
  lemma {:induction false} DocTokensCount(docs: seq<TokenDoc>)
    ensures |DocTokens(docs)| == UsableCount(docs)
  {
    if docs != [] {
      assert docs == [docs[0]] + docs[1..];
      DocTokensAppend([docs[0]], docs[1..]);
      DocTokensSingle(docs[0]);
      DocTokensCount(docs[1..]);
    }
  }

  /** The handler collects exactly as many tokens as the users have usable
      token documents: no de-duplication within or across users. */
  lemma {:induction false} AnnouncementTokensCount(db: Directory, us: seq<Uid>)
    ensures |AnnouncementTokens(db, us)| == UsableTotal(db, us)
  {
    if us != [] {
      assert us == [us[0]] + us[1..];
      assert [us[0]][..0] == [];
      AnnouncementTokensAppend(db, [us[0]], us[1..]);
      DocTokensCount(TokenDocsOf(db, us[0]));
      AnnouncementTokensCount(db, us[1..]);
    }
  }

  /** At most one token per token document: the count never exceeds the
      users' token-document total. */
  lemma {:induction false} AnnouncementTokensBound(db: Directory, us: seq<Uid>)
    ensures |AnnouncementTokens(db, us)| <= TokenTotal(db, us)
  {
    if us != [] {
      AnnouncementTokensBound(db, us[..|us| - 1]);
      DocTokensLength(TokenDocsOf(db, us[|us| - 1]));
    }
  }

  /** Collecting over two lists of users is collecting over each in turn. */
  lemma {:induction false} AnnouncementTokensAppend(db: Directory, xs: seq<Uid>, ys: seq<Uid>)
    ensures AnnouncementTokens(db, xs + ys) == AnnouncementTokens(db, xs) + AnnouncementTokens(db, ys)
  {
    if ys == [] {
      assert xs + ys == xs;
    } else {
      var init, u := ys[..|ys| - 1], ys[|ys| - 1];
      var zs := xs + ys;
      assert zs[..|zs| - 1] == xs + init && zs[|zs| - 1] == u;
      calc {
        AnnouncementTokens(db, zs);
        AnnouncementTokens(db, xs + init) + DocTokens(TokenDocsOf(db, u));
        { AnnouncementTokensAppend(db, xs, init); }
        (AnnouncementTokens(db, xs) + AnnouncementTokens(db, init)) + DocTokens(TokenDocsOf(db, u));
        { AppendAssoc(AnnouncementTokens(db, xs), AnnouncementTokens(db, init), DocTokens(TokenDocsOf(db, u))); }
        AnnouncementTokens(db, xs) + AnnouncementTokens(db, ys);
      }
    }
  }

  /** The two nested `for` loops of step 2. */
  method CollectAnnouncementTokens(db: Directory, users: seq<Uid>) returns (tokens: seq<string>)
    ensures tokens == AnnouncementTokens(db, users)
  {
    tokens := [];
    for n := 0 to |users|
      invariant tokens == AnnouncementTokens(db, users[..n])
    {
      assert users[..n + 1][..n] == users[..n];
      tokens := PushTokenFields(tokens, TokenDocsOf(db, users[n]));
    }
    assert users[..|users|] == users;
  }

  /** The inner loop over one user's token documents. */
  method PushTokenFields(tokens: seq<string>, docs: seq<TokenDoc>) returns (tokens': seq<string>)
    ensures tokens' == tokens + DocTokens(docs)
  {
    tokens' := tokens;
    for k := 0 to |docs|
      invariant tokens' == tokens + DocTokens(docs[..k])
    {
      assert docs[..k + 1][..k] == docs[..k];
      var token := docs[k].token;
      if token.Str? && |token.s| > 0 {
        tokens' := tokens' + [token.s];
      }
    }
    assert docs[..|docs|] == docs;
  }

  // ---------- the whole handler ----------

  function AnnouncementPayload(a: AnnouncementDoc, courseKey: string, courseId: string, announcementId: string): Payload {
    Announcement(NotifTitle(a), NotifBody(a), courseKey, courseId, announcementId)
  }

  /** The calls `notifyCourseAnnouncement` makes, and whether it completes:
      nothing without an event snapshot, without enrolled users or without
      tokens; otherwise one call per slice of 500 tokens, ending at the
      first call that throws. */
  function AnnouncementEffect(db: Directory, courseId: string, announcementId: string,
                              snap: Option<AnnouncementDoc>, respond: seq<string> -> SendResult): Attempt
  {
    match snap
    case None => Attempt([], true)
    case Some(a) =>
      var key := CourseKey(courseId, CourseOf(db, courseId));
      var users := Where(db, EnrolledIn(key));
      if users == [] then Attempt([], true)
      else
        var tokens := AnnouncementTokens(db, users);
        if tokens == [] then Attempt([], true)
        else Multisend(Chunks(tokens, MaxBatch), AnnouncementPayload(a, key, courseId, announcementId), respond)
  }

  /** The two early returns only save work: without them the handler would
      make the same calls, none. */
  lemma EarlyReturnsChangeNothing(db: Directory, courseId: string, announcementId: string,
                                  a: AnnouncementDoc, respond: seq<string> -> SendResult)
    ensures var key := CourseKey(courseId, CourseOf(db, courseId));
      AnnouncementEffect(db, courseId, announcementId, Some(a), respond) ==
        Multisend(Chunks(AnnouncementTokens(db, Where(db, EnrolledIn(key))), MaxBatch),
                  AnnouncementPayload(a, key, courseId, announcementId), respond)
  {
  }

  /** The calls are the 500-token slices of the collected tokens in order,
      each non-empty and carrying the announcement's message; all slices are
      sent exactly when no call throws, and then every token is sent once. */
  lemma AnnouncementCalls(db: Directory, courseId: string, announcementId: string,
                          a: AnnouncementDoc, respond: seq<string> -> SendResult)
    ensures var key := CourseKey(courseId, CourseOf(db, courseId));
      var tokens := AnnouncementTokens(db, Where(db, EnrolledIn(key)));
      var e := AnnouncementEffect(db, courseId, announcementId, Some(a), respond);
      |Chunks(tokens, MaxBatch)| == CeilDiv(|tokens|, MaxBatch) &&
      |e.sends| <= |Chunks(tokens, MaxBatch)| &&
      (forall j :: 0 <= j < |e.sends| ==>
        e.sends[j] == Multicast(Chunks(tokens, MaxBatch)[j], AnnouncementPayload(a, key, courseId, announcementId)) &&
        0 < |e.sends[j].tokens| <= MaxBatch) &&
      (e.ok <==> forall j :: 0 <= j < |Chunks(tokens, MaxBatch)| ==> respond(Chunks(tokens, MaxBatch)[j]).Delivered?) &&
      (e.ok ==> |e.sends| == CeilDiv(|tokens|, MaxBatch) && Concat(Chunks(tokens, MaxBatch)) == tokens)
  {
    var key := CourseKey(courseId, CourseOf(db, courseId));
    var tokens := AnnouncementTokens(db, Where(db, EnrolledIn(key)));
    var payload := AnnouncementPayload(a, key, courseId, announcementId);
    EarlyReturnsChangeNothing(db, courseId, announcementId, a, respond);
    ChunksPartition(tokens, MaxBatch);
    MultisendCalls(Chunks(tokens, MaxBatch), payload, respond);
    MultisendStops(Chunks(tokens, MaxBatch), payload, respond);
  }

  /** Nothing is sent without a snapshot or when no enrolled user has a
      usable token. */
  lemma NoTokensNoCalls(db: Directory, courseId: string, announcementId: string,
                        snap: Option<AnnouncementDoc>, respond: seq<string> -> SendResult)
    requires snap.Some? ==>
      AnnouncementTokens(db, Where(db, EnrolledIn(CourseKey(courseId, CourseOf(db, courseId))))) == []
    ensures AnnouncementEffect(db, courseId, announcementId, snap, respond) == Attempt([], true)
  {
  }

  /** `notifyCourseAnnouncement`; `ok` is false when a send call threw. */
  method NotifyCourseAnnouncement(b: Backend, courseId: string, announcementId: string, snap: Option<AnnouncementDoc>)
    returns (ok: bool)
    requires b.Valid()
    modifies b
    ensures b.Valid() && b.db == old(b.db)
    ensures var e := AnnouncementEffect(old(b.db), courseId, announcementId, snap, b.respond);
      b.sent == old(b.sent) + e.sends && ok == e.ok
  {
    if snap.None? {
      return true;
    }
    ok := Announce(b, courseId, announcementId, snap.value);
  }

  /** The handler once the snapshot is there. */
  method Announce(b: Backend, courseId: string, announcementId: string, a: AnnouncementDoc) returns (ok: bool)
    requires b.Valid()
    modifies b
    ensures b.Valid() && b.db == old(b.db)
    ensures var e := AnnouncementEffect(old(b.db), courseId, announcementId, Some(a), b.respond);
      b.sent == old(b.sent) + e.sends && ok == e.ok
  {
    var courseKey := ResolveCourseKey(b.db, courseId);
    var users := Where(b.db, EnrolledIn(courseKey));
    if |users| == 0 {
      EffectUnfolded(b.db, courseId, announcementId, a, b.respond, courseKey, users, []);
      return true;
    }
    var tokens := CollectAnnouncementTokens(b.db, users);
    EffectUnfolded(b.db, courseId, announcementId, a, b.respond, courseKey, users, tokens);
    if |tokens| == 0 {
      return true;
    }
    ok := SendSlices(b, tokens, AnnouncementPayload(a, courseKey, courseId, announcementId));
  }

  /** The handler's effect in terms of its local variables. */
  lemma EffectUnfolded(db: Directory, courseId: string, announcementId: string, a: AnnouncementDoc,
                       respond: seq<string> -> SendResult, key: string, users: seq<Uid>, tokens: seq<string>)
    requires key == CourseKey(courseId, CourseOf(db, courseId)) && users == Where(db, EnrolledIn(key))
    requires users != [] ==> tokens == AnnouncementTokens(db, users)
    ensures users == [] || tokens == [] ==> AnnouncementEffect(db, courseId, announcementId, Some(a), respond) == Attempt([], true)
    ensures users != [] && tokens != [] ==>
      AnnouncementEffect(db, courseId, announcementId, Some(a), respond) ==
        Multisend(Chunks(tokens, MaxBatch), AnnouncementPayload(a, key, courseId, announcementId), respond)
  {
  }

  /** `let courseKey = courseId`, replaced by the course document's code when
      it has a usable one. */
  method ResolveCourseKey(db: Directory, courseId: string) returns (courseKey: string)
    ensures courseKey == CourseKey(courseId, CourseOf(db, courseId))
    ensures courseKey == courseId || Trimmed(courseKey)
  {
    courseKey := courseId;
    if courseId in db.courses {
      var c := db.courses[courseId];
      var maybeCode := Coalesce(c.code, c.courseCode);
      if maybeCode.Str? && |Trim(maybeCode.s)| > 0 {
        courseKey := Trim(maybeCode.s);
      }
    }
    CourseKeyIsTrimmed(courseId, CourseOf(db, courseId));
  }

  /** `for (let i = 0; i < tokens.length; i += 500)` with one call on
      `tokens.slice(i, i + 500)` each, stopping when a call throws. */
  method SendSlices(b: Backend, tokens: seq<string>, payload: Payload) returns (ok: bool)
    requires b.Valid()
    modifies b
    ensures b.Valid() && b.db == old(b.db)
    ensures var m := Multisend(Chunks(tokens, MaxBatch), payload, b.respond);
      b.sent == old(b.sent) + m.sends && ok == m.ok
  {
    ghost var sent0 := b.sent;
    ghost var sendsSoFar: seq<Multicast> := [];
    StartSlices(tokens, payload, b.respond, sent0);
    var i := 0;
    while i < |tokens|
      invariant b.Valid() && b.db == old(b.db)
      invariant Slicing(tokens, i, payload, b.respond, sent0, b.sent, sendsSoFar)
      decreases |tokens| - i
    {
      var chunk := tokens[i..Min(i + MaxBatch, |tokens|)];
      ghost var sent1 := b.sent;
      var res := b.Send(chunk, payload);
      SliceStep(tokens, i, payload, b.respond, sent0, sent1, sendsSoFar);
      sendsSoFar := sendsSoFar + [Multicast(chunk, payload)];
      if res.SendFailed? {
        return false;
      }
      i := i + MaxBatch;
    }
    FinishSlices(tokens, i, payload, b.respond, sent0, b.sent, sendsSoFar);
    ok := true;
  }

  /** The tokens from position `i` on; none once `i` is past the end. */
  function From(tokens: seq<string>, i: nat): seq<string> {
    tokens[Min(i, |tokens|)..]
  }

  /** Calls already made, in front of what the remaining slices do; the
      `Attempt` counterpart of `Dispatch.After`, with nothing scheduled and
      no store. */
  function Prepend(sends: seq<Multicast>, rest: Attempt): Attempt {
    Attempt(sends + rest.sends, rest.ok)
  }

  /** The state of the slice loop before the slice at `i`. */
  ghost predicate Slicing(tokens: seq<string>, i: nat, payload: Payload, respond: seq<string> -> SendResult,
                          sent0: seq<Multicast>, sent: seq<Multicast>, sends: seq<Multicast>)
  {
    Multisend(Chunks(tokens, MaxBatch), payload, respond) ==
      Prepend(sends, Multisend(Chunks(From(tokens, i), MaxBatch), payload, respond)) &&
    sent == sent0 + sends
  }

  lemma StartSlices(tokens: seq<string>, payload: Payload, respond: seq<string> -> SendResult, sent0: seq<Multicast>)
    ensures Slicing(tokens, 0, payload, respond, sent0, sent0, [])
  {
    assert From(tokens, 0) == tokens;
    assert sent0 + [] == sent0;
    var m := Multisend(Chunks(tokens, MaxBatch), payload, respond);
    assert [] + m.sends == m.sends;
  }

  /** One call of the slice loop: if it throws, the whole effect is what has
      been sent; otherwise the loop goes on from `i + 500`. */
  lemma SliceStep(tokens: seq<string>, i: nat, payload: Payload, respond: seq<string> -> SendResult,
                  sent0: seq<Multicast>, sent: seq<Multicast>, sends: seq<Multicast>)
    requires i < |tokens|
    requires Slicing(tokens, i, payload, respond, sent0, sent, sends)
    ensures var chunk := tokens[i..Min(i + MaxBatch, |tokens|)];
      var sends' := sends + [Multicast(chunk, payload)];
      sent + [Multicast(chunk, payload)] == sent0 + sends' &&
      (respond(chunk).SendFailed? ==> Multisend(Chunks(tokens, MaxBatch), payload, respond) == Attempt(sends', false)) &&
      (respond(chunk).Delivered? ==> Slicing(tokens, i + MaxBatch, payload, respond, sent0, sent + [Multicast(chunk, payload)], sends'))
  {
    var chunk := tokens[i..Min(i + MaxBatch, |tokens|)];
    var m := Multicast(chunk, payload);
    ChunksStep(tokens, i, MaxBatch);
    assert From(tokens, i) == tokens[i..];
    assert From(tokens, i + MaxBatch) == tokens[Min(i + MaxBatch, |tokens|)..];
    var pieces := Chunks(tokens[i..], MaxBatch);
    assert pieces[0] == chunk && pieces[1..] == Chunks(From(tokens, i + MaxBatch), MaxBatch);
    if respond(chunk).Delivered? {
      var rest := Multisend(pieces[1..], payload, respond);
      assert sends + ([m] + rest.sends) == (sends + [m]) + rest.sends;
    }
    assert (sent0 + sends) + [m] == sent0 + (sends + [m]);
  }

  lemma FinishSlices(tokens: seq<string>, i: nat, payload: Payload, respond: seq<string> -> SendResult,
                     sent0: seq<Multicast>, sent: seq<Multicast>, sends: seq<Multicast>)
    requires i >= |tokens|
    requires Slicing(tokens, i, payload, respond, sent0, sent, sends)
    ensures Multisend(Chunks(tokens, MaxBatch), payload, respond) == Attempt(sends, true)
    ensures sent == sent0 + sends
  {
    assert From(tokens, i) == [];
    assert sends + [] == sends;
  }
}
