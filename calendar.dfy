/**
 * The two calendar handlers of functions/index.js: `notifyCalendarItemCreated`,
 * run when a `calendarEvents/{eventId}` document is created, and the loop of
 * `sendTomorrowCalendarReminders` over the items due tomorrow. Both read the
 * item's fields with defaults, route on its scope to one of the token
 * lookups, or to none, and hand the registrations to `sendToTokenRefs`.
 */
module Calendar {
  import opened Optional
  import opened JsValues
  import opened Store
  import opened Aggregation
  import opened Batching
  import opened Dispatch

  /** The fields of a calendar item document the handlers read. */
  datatype CalendarItem = CalendarItem(
    scope: JsValue, kind: JsValue, title: JsValue,
    facultyId: JsValue, courseCode: JsValue, ownerId: JsValue)

  /** `{}`: every field undefined. */
  const EmptyItem: CalendarItem := CalendarItem(Undefined, Undefined, Undefined, Undefined, Undefined, Undefined)

  /** `event.data?.data() || {}` */
  function ItemOf(snap: Option<CalendarItem>): CalendarItem {
    match snap
    case None => EmptyItem
    case Some(item) => item
  }

  /** The item's fields as strings, after `(x || default).toString()`. */
  datatype Fields = Fields(
    scope: string, kind: string, title: string,
    facultyId: string, courseCode: string, ownerId: string)

  function FieldsOf(item: CalendarItem): Fields {
    Fields(
      OrDefault(item.scope, "global"),
      OrDefault(item.kind, "Event"),
      OrDefault(item.title, "Untitled"),
      OrDefault(item.facultyId, ""),
      OrDefault(item.courseCode, ""),
      OrDefault(item.ownerId, ""))
  }

  /** Which token lookup a handler runs. */
  datatype Audience =
    | Owner(uid: Uid)                       // getAllTokensForUser
    | CourseStudents(courseCode: string)    // getAllTokensForCourseStudents
    | FacultyStudents(facultyId: string)    // getAllTokensForFacultyStudents

  /** The routing of `notifyCalendarItemCreated`: nothing for personal items
      and for types other than Event and Deadline; course students for a
      course item with a code; otherwise, whatever the scope says, faculty
      students when there is a faculty id. `None` is an early return. */
  function CreatedAudience(f: Fields): Option<Audience> {
    if f.scope == "personal" then None
    else if f.kind != "Event" && f.kind != "Deadline" then None
    else if f.scope == "course" then
      if f.courseCode == "" then None else Some(CourseStudents(f.courseCode))
    else if f.facultyId == "" then None
    else Some(FacultyStudents(f.facultyId))
  }

  /** The routing of one reminder: the owner for a personal item, the same
      course and faculty routes as above for the others, and no type filter.
      `None` is a `continue`. */
  function ReminderAudience(f: Fields): Option<Audience> {
    if f.scope == "personal" then
      if f.ownerId == "" then None else Some(Owner(f.ownerId))
    else if f.scope == "course" then
      if f.courseCode == "" then None else Some(CourseStudents(f.courseCode))
    else if f.facultyId == "" then None
    else Some(FacultyStudents(f.facultyId))
  }

  /** The registrations the chosen lookup returns. */
  function AudienceTokens(db: Directory, a: Audience): seq<Registration> {
    match a
    case Owner(u) => UserTokens(db, u)
    case CourseStudents(c) => Expand(db, Eligible(db, Where(db, EnrolledIn(c))))
    case FacultyStudents(f) => Expand(db, Eligible(db, Where(db, InFaculty(f))))
  }

  /** The message of `notifyCalendarItemCreated`. */
  function CreatedPayload(f: Fields, eventId: string): Payload {
    CalendarMsg(
      (if f.kind == "Deadline" then "New deadline: " else "New event: ") + f.title,
      if f.scope == "course" then "Course " + f.courseCode else "Faculty-wide",
      CalendarData("calendar_created", f.kind, f.scope, eventId, f.courseCode, f.facultyId, None))
  }

  /** The message of one reminder. */
  function ReminderPayload(f: Fields, docId: string): Payload {
    CalendarMsg(
      "Tomorrow: " + f.title,
      if f.scope == "personal" then "Personal reminder"
      else if f.scope == "course" then f.kind + " • Course " + f.courseCode
      else f.kind + " • Faculty-wide",
      CalendarData("calendar_tomorrow", f.kind, f.scope, docId, f.courseCode, f.facultyId, Some(f.ownerId)))
  }

  /** What a routed notification does: nothing on an early return, else
      `sendToTokenRefs` on the lookup's registrations. */
  function Notify(db: Directory, a: Option<Audience>, payload: Payload,
                  respond: seq<string> -> SendResult, rejected: set<Ref>): Effect
    requires Aligned(respond)
  {
    match a
    case None => Effect(db, [], true)
    case Some(aud) => Deliver(db, AudienceTokens(db, aud), payload, respond, rejected)
  }

  /** The whole effect of `notifyCalendarItemCreated`. */
  function CreatedEffect(db: Directory, snap: Option<CalendarItem>, eventId: string,
                         respond: seq<string> -> SendResult, rejected: set<Ref>): Effect
    requires Aligned(respond)
  {
    var f := FieldsOf(ItemOf(snap));
    Notify(db, CreatedAudience(f), CreatedPayload(f, eventId), respond, rejected)
  }

  /** One document of the query for tomorrow's items. */
  datatype DueItem = DueItem(id: string, item: CalendarItem)

  function ReminderEffect(db: Directory, d: DueItem, respond: seq<string> -> SendResult, rejected: set<Ref>): Effect
    requires Aligned(respond)
  {
    var f := FieldsOf(d.item);
    Notify(db, ReminderAudience(f), ReminderPayload(f, d.id), respond, rejected)
  }

  /** Calls already made, in front of what the remaining items do; the
      `Effect` counterpart of `Dispatch.After`, the store being the one the
      rest ends in. */
  function ThenRest(sends: seq<Multicast>, rest: Effect): Effect {
    Effect(rest.db, sends + rest.sends, rest.ok)
  }

  /** The loop over the due items: each item is routed against the store as
      the items before it left it, and a send call that throws ends the
      handler. */
  function Reminders(db: Directory, due: seq<DueItem>, respond: seq<string> -> SendResult, rejected: set<Ref>): Effect
    requires Aligned(respond)
    decreases |due|
  {
    if due == [] then Effect(db, [], true)
    else
      var first := ReminderEffect(db, due[0], respond, rejected);
      if !first.ok then first
      else
        ThenRest(first.sends, Reminders(first.db, due[1..], respond, rejected))
  }

  // ---------- routing properties ----------

  /** `notifyCalendarItemCreated` returns early exactly in the four cases:
      a personal item, a type other than Event and Deadline, a course item
      without a course code, and any other scope without a faculty id. */
  lemma CreatedSkipIff(f: Fields)
    ensures CreatedAudience(f) == None <==>
      f.scope == "personal" ||
      (f.kind != "Event" && f.kind != "Deadline") ||
      (f.scope == "course" && f.courseCode == "") ||
      (f.scope != "course" && f.facultyId == "")
  {
  }

  /** An early return sends nothing and deletes nothing. */
  lemma CreatedSkipSendsNothing(db: Directory, snap: Option<CalendarItem>, eventId: string,
                                respond: seq<string> -> SendResult, rejected: set<Ref>)
    requires Aligned(respond)
    requires var f := FieldsOf(ItemOf(snap));
      f.scope == "personal" || (f.kind != "Event" && f.kind != "Deadline") ||
      (f.scope == "course" && f.courseCode == "") || (f.scope != "course" && f.facultyId == "")
    ensures CreatedEffect(db, snap, eventId, respond, rejected) == Effect(db, [], true)
  {
    CreatedSkipIff(FieldsOf(ItemOf(snap)));
  }

  /** A missing document and a document without fields default to the
      global scope and have no faculty id, so nothing is sent. */
  lemma MissingItemSendsNothing(db: Directory, eventId: string, respond: seq<string> -> SendResult, rejected: set<Ref>)
    requires Aligned(respond)
    ensures FieldsOf(ItemOf(None)).scope == "global" && FieldsOf(ItemOf(None)).kind == "Event"
    ensures CreatedEffect(db, None, eventId, respond, rejected) == Effect(db, [], true)
    ensures CreatedEffect(db, Some(EmptyItem), eventId, respond, rejected) == Effect(db, [], true)
  {
  }

  /** Any scope other than "personal" and "course" is routed like "global". */
  lemma OtherScopesAreGlobal(f: Fields)
    requires f.scope != "personal" && f.scope != "course"
    ensures CreatedAudience(f) == CreatedAudience(f.(scope := "global"))
    ensures ReminderAudience(f) == ReminderAudience(f.(scope := "global"))
  {
  }

  /** For a non-personal Event or Deadline the reminder goes to the same
      recipients as the creation notice. */
  lemma ReminderAgreesWithCreated(f: Fields)
    requires f.scope != "personal" && (f.kind == "Event" || f.kind == "Deadline")
    ensures ReminderAudience(f) == CreatedAudience(f)
  {
  }

  /** Reminders do not look at the type: a "Reminder" item is routed like
      any other. */
  lemma ReminderIgnoresType(f: Fields, kind: string)
    ensures ReminderAudience(f.(kind := kind)) == ReminderAudience(f)
  {
  }

  /** The creation notice never targets one user; reminders target the owner
      exactly for a personal item with an owner. */
  lemma OwnerOnlyForPersonal(f: Fields)
    ensures !(CreatedAudience(f).Some? && CreatedAudience(f).value.Owner?)
    ensures ReminderAudience(f) == Some(Owner(f.ownerId)) <==> f.scope == "personal" && f.ownerId != ""
  {
  }

  /** The course and faculty routes never reach an admin-like user, and they
      reach only users matching the item; the personal route returns all of
      the owner's registrations, whatever the owner's role. */
  lemma AudienceTokensMember(db: Directory, a: Audience, r: Registration)
    ensures a.CourseStudents? ==> (r in AudienceTokens(db, a) <==>
      r.ref.uid in Where(db, EnrolledIn(a.courseCode)) && !IsAdminLike(db, r.ref.uid) && r in UserTokens(db, r.ref.uid))
    ensures a.FacultyStudents? ==> (r in AudienceTokens(db, a) <==>
      r.ref.uid in Where(db, InFaculty(a.facultyId)) && !IsAdminLike(db, r.ref.uid) && r in UserTokens(db, r.ref.uid))
    ensures a.Owner? ==> AudienceTokens(db, a) == UserTokens(db.(roles := map[]), a.uid)
  {
    match a
    case Owner(u) =>
      UserTokensIgnoreRoles(db, u, map[], db.users);
    case CourseStudents(c) =>
      StudentTokensFactor(db, Where(db, EnrolledIn(c)));
      StudentTokensMember(db, Where(db, EnrolledIn(c)), r);
    case FacultyStudents(fid) =>
      StudentTokensFactor(db, Where(db, InFaculty(fid)));
      StudentTokensMember(db, Where(db, InFaculty(fid)), r);
  }

  /** The course of three enrolled users, one an admin and the other two with
      two tokens each: the four registrations go out in one provider call,
      whatever the provider answers. */
  lemma CourseScenarioOneCall(payload: Payload, respond: seq<string> -> SendResult, rejected: set<Ref>)
    requires Aligned(respond)
    ensures var db := ScenarioDirectory();
      |AudienceTokens(db, CourseStudents("CS101"))| == 4 &&
      |Deliver(db, AudienceTokens(db, CourseStudents("CS101")), payload, respond, rejected).sends| == 1
  {
    var db := ScenarioDirectory();
    var regs := AudienceTokens(db, CourseStudents("CS101"));
    CourseScenario();
    StudentTokensFactor(db, Where(db, EnrolledIn("CS101")));
    DeliverCalls(db, regs, payload, respond, rejected);
    ChunksPartition(regs, MaxBatch);
    CeilDiv500(4);
  }

  /** A routed notification with at least one registration makes at least
      one call, each carrying the handler's payload. */
  lemma NotifyCalls(db: Directory, a: Option<Audience>, payload: Payload,
                    respond: seq<string> -> SendResult, rejected: set<Ref>)
    requires Aligned(respond)
    ensures var e := Notify(db, a, payload, respond, rejected);
      (forall j :: 0 <= j < |e.sends| ==> e.sends[j].payload == payload) &&
      (a.Some? && AudienceTokens(db, a.value) != [] ==> |e.sends| > 0) &&
      (a.None? ==> e == Effect(db, [], true))
  {
    if a.Some? {
      var regs := AudienceTokens(db, a.value);
      DeliverCalls(db, regs, payload, respond, rejected);
    }
  }

  /** The ids of the due items. */
  function IdsOf(due: seq<DueItem>): set<string> {
    set d | d in due :: d.id
  }

  /** A "calendar_tomorrow" message about one of the items with the given ids. */
  predicate IsReminderAbout(m: Multicast, ids: set<string>) {
    m.payload.CalendarMsg? && m.payload.data.kind == "calendar_tomorrow" && m.payload.data.eventId in ids
  }

  /** The calls one reminder makes carry that item's message. */
  lemma ReminderEffectPayloads(db: Directory, d: DueItem, respond: seq<string> -> SendResult, rejected: set<Ref>)
    requires Aligned(respond)
    ensures forall m :: m in ReminderEffect(db, d, respond, rejected).sends ==> IsReminderAbout(m, {d.id})
  {
    var f := FieldsOf(d.item);
    NotifyCalls(db, ReminderAudience(f), ReminderPayload(f, d.id), respond, rejected);
    var e := ReminderEffect(db, d, respond, rejected);
    forall m | m in e.sends ensures IsReminderAbout(m, {d.id}) {
      var j :| 0 <= j < |e.sends| && e.sends[j] == m;
    }
  }

  /** Every call the reminder loop makes carries a "calendar_tomorrow"
      message about one of the due items. */
  lemma {:induction false} RemindersPayloads(db: Directory, due: seq<DueItem>,
                                             respond: seq<string> -> SendResult, rejected: set<Ref>)
    requires Aligned(respond)
    ensures forall m :: m in Reminders(db, due, respond, rejected).sends ==> IsReminderAbout(m, IdsOf(due))
    decreases |due|
  {
    if due != [] {
      var first := ReminderEffect(db, due[0], respond, rejected);
      ReminderEffectPayloads(db, due[0], respond, rejected);
      assert due[0] in due;
      assert {due[0].id} <= IdsOf(due);
      if first.ok {
        RemindersPayloads(first.db, due[1..], respond, rejected);
        assert IdsOf(due[1..]) <= IdsOf(due) by {
          forall x | x in IdsOf(due[1..]) ensures x in IdsOf(due) {
            var d :| d in due[1..] && d.id == x;
            assert d in due;
          }
        }
      }
    }
  }

  /** Items the routing skips contribute nothing: when every due item is
      skipped, the loop sends nothing and deletes nothing. */
  lemma {:induction false} RemindersAllSkipped(db: Directory, due: seq<DueItem>,
                                               respond: seq<string> -> SendResult, rejected: set<Ref>)
    requires Aligned(respond)
    requires forall i :: 0 <= i < |due| ==> ReminderAudience(FieldsOf(due[i].item)) == None
    ensures Reminders(db, due, respond, rejected) == Effect(db, [], true)
  {
    if due != [] {
      RemindersAllSkipped(db, due[1..], respond, rejected);
    }
  }

  /** Running the loop over `xs + ys` is running it over `xs` and, only when
      that completed, over `ys` from the store `xs` left: once an item's send
      throws, the later items add no call and change nothing. */
  lemma {:induction false} RemindersSplit(db: Directory, xs: seq<DueItem>, ys: seq<DueItem>,
                                          respond: seq<string> -> SendResult, rejected: set<Ref>)
    requires Aligned(respond)
    ensures var p := Reminders(db, xs, respond, rejected);
      Reminders(db, xs + ys, respond, rejected) ==
        if p.ok then ThenRest(p.sends, Reminders(p.db, ys, respond, rejected)) else p
    decreases |xs|
  {
    if xs == [] {
      assert xs + ys == ys;
      var r := Reminders(db, ys, respond, rejected);
      assert [] + r.sends == r.sends;
    } else {
      assert (xs + ys)[0] == xs[0] && (xs + ys)[1..] == xs[1..] + ys;
      var first := ReminderEffect(db, xs[0], respond, rejected);
      if first.ok {
        RemindersSplit(first.db, xs[1..], ys, respond, rejected);
        var p := Reminders(first.db, xs[1..], respond, rejected);
        if p.ok {
          ThenRestThenRest(first.sends, p.sends, Reminders(p.db, ys, respond, rejected));
        }
      }
    }
  }

  /** An item whose send throws, after items that all completed, ends the
      loop there: the calls are those of the items before it and its own. */
  lemma RemindersFailAt(db: Directory, due: seq<DueItem>, k: nat, respond: seq<string> -> SendResult, rejected: set<Ref>)
    requires Aligned(respond) && k < |due|
    requires Reminders(db, due[..k], respond, rejected).ok
    requires !ReminderEffect(Reminders(db, due[..k], respond, rejected).db, due[k], respond, rejected).ok
    ensures var p := Reminders(db, due[..k], respond, rejected);
      var f := ReminderEffect(p.db, due[k], respond, rejected);
      Reminders(db, due, respond, rejected) == Effect(f.db, p.sends + f.sends, false)
  {
    SplitAt(due, k);
    RemindersFailAfter(db, due[..k], due[k..], respond, rejected);
  }

  /** The same, with the items before the failing one as `xs`. */
  lemma RemindersFailAfter(db: Directory, xs: seq<DueItem>, ys: seq<DueItem>, respond: seq<string> -> SendResult, rejected: set<Ref>)
    requires Aligned(respond) && ys != []
    requires Reminders(db, xs, respond, rejected).ok
    requires !ReminderEffect(Reminders(db, xs, respond, rejected).db, ys[0], respond, rejected).ok
    ensures var p := Reminders(db, xs, respond, rejected);
      var f := ReminderEffect(p.db, ys[0], respond, rejected);
      Reminders(db, xs + ys, respond, rejected) == Effect(f.db, p.sends + f.sends, false)
  {
    RemindersSplit(db, xs, ys, respond, rejected);
    RemindersHeadFails(Reminders(db, xs, respond, rejected).db, ys, respond, rejected);
  }

  /** A first item whose send throws is the whole loop's effect. */
  lemma RemindersHeadFails(db: Directory, due: seq<DueItem>, respond: seq<string> -> SendResult, rejected: set<Ref>)
    requires Aligned(respond) && due != []
    requires !ReminderEffect(db, due[0], respond, rejected).ok
    ensures Reminders(db, due, respond, rejected) == ReminderEffect(db, due[0], respond, rejected)
  {
  }

  /** The loop fails exactly when some item's send throws after every item
      before it completed. */
  lemma {:induction false} RemindersFailIff(db: Directory, due: seq<DueItem>, respond: seq<string> -> SendResult, rejected: set<Ref>)
    requires Aligned(respond)
    ensures !Reminders(db, due, respond, rejected).ok <==> FailsSomewhere(db, due, respond, rejected)
    decreases |due|
  {
    if FailsSomewhere(db, due, respond, rejected) {
      var k :| FailsAt(db, due, k, respond, rejected);
      RemindersFailAt(db, due, k, respond, rejected);
    }
    if !Reminders(db, due, respond, rejected).ok {
      RemindersFailShift(db, due, respond, rejected);
    }
  }

  /** Item `k` is the first whose send throws. */
  ghost predicate FailsAt(db: Directory, due: seq<DueItem>, k: int, respond: seq<string> -> SendResult, rejected: set<Ref>)
    requires Aligned(respond)
  {
    0 <= k < |due| && Reminders(db, due[..k], respond, rejected).ok &&
    !ReminderEffect(Reminders(db, due[..k], respond, rejected).db, due[k], respond, rejected).ok
  }

  ghost predicate FailsSomewhere(db: Directory, due: seq<DueItem>, respond: seq<string> -> SendResult, rejected: set<Ref>)
    requires Aligned(respond)
  {
    exists k :: FailsAt(db, due, k, respond, rejected)
  }

  /** A failed loop has a first item whose send threw. */
  lemma {:induction false} RemindersFailShift(db: Directory, due: seq<DueItem>, respond: seq<string> -> SendResult, rejected: set<Ref>)
    requires Aligned(respond) && !Reminders(db, due, respond, rejected).ok
    ensures FailsSomewhere(db, due, respond, rejected)
    decreases |due|
  {
    var first := ReminderEffect(db, due[0], respond, rejected);
    if !first.ok {
      assert due[..0] == [];
      assert FailsAt(db, due, 0, respond, rejected);
    } else {
      assert !Reminders(first.db, due[1..], respond, rejected).ok;
      RemindersFailShift(first.db, due[1..], respond, rejected);
      var j :| FailsAt(first.db, due[1..], j, respond, rejected);
      FailsAtShift(db, due, j, respond, rejected);
    }
  }

  /** Item `j` failing after the first item is item `j + 1` failing. */
  lemma FailsAtShift(db: Directory, due: seq<DueItem>, j: int, respond: seq<string> -> SendResult, rejected: set<Ref>)
    requires Aligned(respond) && due != []
    requires ReminderEffect(db, due[0], respond, rejected).ok
    requires FailsAt(ReminderEffect(db, due[0], respond, rejected).db, due[1..], j, respond, rejected)
    ensures FailsAt(db, due, j + 1, respond, rejected)
  {
    var first := ReminderEffect(db, due[0], respond, rejected);
    var pre := due[..j + 1];
    assert Reminders(db, pre, respond, rejected) == ThenRest(first.sends, Reminders(first.db, due[1..][..j], respond, rejected)) by {
      assert pre[0] == due[0] && pre[1..] == due[1..][..j];
    }
    assert due[1..][j] == due[j + 1];
  }

  // ---------- the handlers ----------

  /** The lookup the routing chose, then `sendToTokenRefs`. */
  method SendToAudience(b: Backend, a: Audience, payload: Payload) returns (ok: bool)
    requires b.Valid()
    modifies b
    ensures var e := Deliver(old(b.db), AudienceTokens(old(b.db), a), payload, b.respond, b.rejected);
      b.db == e.db && b.sent == old(b.sent) + e.sends && ok == e.ok
  {
    var regs: seq<Registration>;
    match a {
      case Owner(u) =>
        regs := UserTokens(b.db, u);
      case CourseStudents(c) =>
        regs := GetAllTokensForCourseStudents(b.db, c);
      case FacultyStudents(fid) =>
        regs := GetAllTokensForFacultyStudents(b.db, fid);
    }
    ok := b.SendToTokenRefs(regs, payload);
  }

  /** `notifyCalendarItemCreated`; `ok` is false when the handler throws
      because a send call threw. */
  method NotifyCalendarItemCreated(b: Backend, snap: Option<CalendarItem>, eventId: string) returns (ok: bool)
    requires b.Valid()
    modifies b
    ensures var e := CreatedEffect(old(b.db), snap, eventId, b.respond, b.rejected);
      b.db == e.db && b.sent == old(b.sent) + e.sends && ok == e.ok
  {
    var f := FieldsOf(ItemOf(snap));
    if f.scope == "personal" {
      return true;
    }
    if f.kind != "Event" && f.kind != "Deadline" {
      return true;
    }
    var a: Audience;
    if f.scope == "course" {
      if f.courseCode == "" {
        return true;
      }
      a := CourseStudents(f.courseCode);
    } else {
      if f.facultyId == "" {
        return true;
      }
      a := FacultyStudents(f.facultyId);
    }
    ok := SendToAudience(b, a, CreatedPayload(f, eventId));
  }

  /** The body of the reminder loop for one item. */
  method RemindOne(b: Backend, d: DueItem) returns (ok: bool)
    requires b.Valid()
    modifies b
    ensures var e := ReminderEffect(old(b.db), d, b.respond, b.rejected);
      b.db == e.db && b.sent == old(b.sent) + e.sends && ok == e.ok
  {
    var f := FieldsOf(d.item);
    var a: Audience;
    if f.scope == "personal" {
      if f.ownerId == "" {
        return true;
      }
      a := Owner(f.ownerId);
    } else if f.scope == "course" {
      if f.courseCode == "" {
        return true;
      }
      a := CourseStudents(f.courseCode);
    } else {
      if f.facultyId == "" {
        return true;
      }
      a := FacultyStudents(f.facultyId);
    }
    ok := SendToAudience(b, a, ReminderPayload(f, d.id));
  }

  /** `sendTomorrowCalendarReminders`, given the documents its date query
      returned. */
  method SendTomorrowCalendarReminders(b: Backend, due: seq<DueItem>) returns (ok: bool)
    requires b.Valid()
    modifies b
    ensures var e := Reminders(old(b.db), due, b.respond, b.rejected);
      b.db == e.db && b.sent == old(b.sent) + e.sends && ok == e.ok
  {
    ghost var db0, sent0 := b.db, b.sent;
    ghost var sendsSoFar: seq<Multicast> := [];
    StartReminders(db0, due, b.respond, b.rejected, sent0);
    var i := 0;
    while i < |due|
      invariant 0 <= i <= |due|
      invariant b.Valid()
      invariant RemindersLoop(db0, due, i, b.respond, b.rejected, sent0, b.db, b.sent, sendsSoFar)
      decreases |due| - i
    {
      var delivered;
      delivered, sendsSoFar := RemindStep(b, due, i, db0, sent0, sendsSoFar);
      if !delivered {
        return false;
      }
      i := i + 1;
    }
    FinishReminders(db0, due, i, b.respond, b.rejected, sent0, b.db, b.sent, sendsSoFar);
    ok := true;
  }

  /** One pass of the reminder loop. */
  method RemindStep(b: Backend, due: seq<DueItem>, i: nat, ghost db0: Directory, ghost sent0: seq<Multicast>,
                    ghost sends: seq<Multicast>) returns (delivered: bool, ghost sends': seq<Multicast>)
    requires b.Valid() && i < |due|
    requires RemindersLoop(db0, due, i, b.respond, b.rejected, sent0, b.db, b.sent, sends)
    modifies b
    ensures b.Valid()
    ensures delivered ==> RemindersLoop(db0, due, i + 1, b.respond, b.rejected, sent0, b.db, b.sent, sends')
    ensures !delivered ==> RemindersDone(db0, due, b.respond, b.rejected, sent0, b.db, b.sent)
  {
    ghost var db1, sent1 := b.db, b.sent;
    delivered := RemindOne(b, due[i]);
    ghost var step := ReminderEffect(db1, due[i], b.respond, b.rejected);
    sends' := sends + step.sends;
    LoopStep(db1, due, i, b.respond, b.rejected, sends);
    AppendAssoc(sent0, sends, step.sends);
  }

  /** The state of the reminder loop before item `i`. */
  ghost predicate RemindersLoop(db0: Directory, due: seq<DueItem>, i: nat, respond: seq<string> -> SendResult,
                                rejected: set<Ref>, sent0: seq<Multicast>, db: Directory, sent: seq<Multicast>,
                                sends: seq<Multicast>)
  {
    Aligned(respond) && i <= |due| &&
    Reminders(db0, due, respond, rejected) == ThenRest(sends, Reminders(db, due[i..], respond, rejected)) &&
    sent == sent0 + sends
  }

  /** The reminder loop has ended early with its whole effect in place. */
  ghost predicate RemindersDone(db0: Directory, due: seq<DueItem>, respond: seq<string> -> SendResult,
                                rejected: set<Ref>, sent0: seq<Multicast>, db: Directory, sent: seq<Multicast>)
  {
    Aligned(respond) &&
    var e := Reminders(db0, due, respond, rejected);
    db == e.db && sent == sent0 + e.sends && !e.ok
  }

  lemma StartReminders(db0: Directory, due: seq<DueItem>, respond: seq<string> -> SendResult,
                       rejected: set<Ref>, sent0: seq<Multicast>)
    requires Aligned(respond)
    ensures RemindersLoop(db0, due, 0, respond, rejected, sent0, db0, sent0, [])
  {
    assert due[0..] == due;
    assert sent0 + [] == sent0;
    var e := Reminders(db0, due, respond, rejected);
    assert [] + e.sends == e.sends;
  }

  /** One step of the reminder loop, from item `i` on. */
  lemma LoopStep(db: Directory, due: seq<DueItem>, i: nat, respond: seq<string> -> SendResult,
                 rejected: set<Ref>, sends: seq<Multicast>)
    requires Aligned(respond) && i < |due|
    ensures var first := ReminderEffect(db, due[i], respond, rejected);
      ThenRest(sends, Reminders(db, due[i..], respond, rejected)) ==
        if first.ok then ThenRest(sends + first.sends, Reminders(first.db, due[i + 1..], respond, rejected))
        else Effect(first.db, sends + first.sends, false)
  {
    assert due[i..][0] == due[i] && due[i..][1..] == due[i + 1..];
    var first := ReminderEffect(db, due[i], respond, rejected);
    if first.ok {
      ThenRestThenRest(sends, first.sends, Reminders(first.db, due[i + 1..], respond, rejected));
    }
  }

  lemma ThenRestThenRest(a: seq<Multicast>, b: seq<Multicast>, rest: Effect)
    ensures ThenRest(a, ThenRest(b, rest)) == ThenRest(a + b, rest)
  {
    AppendAssoc(a, b, rest.sends);
  }

  lemma FinishReminders(db0: Directory, due: seq<DueItem>, i: nat, respond: seq<string> -> SendResult,
                        rejected: set<Ref>, sent0: seq<Multicast>, db: Directory, sent: seq<Multicast>,
                        sends: seq<Multicast>)
    requires i == |due|
    requires RemindersLoop(db0, due, i, respond, rejected, sent0, db, sent, sends)
    ensures var e := Reminders(db0, due, respond, rejected);
      db == e.db && sent == sent0 + e.sends && e.ok
  {
    assert due[i..] == [];
    assert sends + [] == sends;
  }
}
