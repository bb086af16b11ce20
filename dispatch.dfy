/**
 * The batch dispatcher `sendToTokenRefs` of functions/index.js, with Firebase
 * Messaging and Firestore replaced by a `Backend` object: a log of the
 * multicast calls made, a provider function that answers each call, and the
 * store whose token documents the dispatcher deletes.
 */
module Dispatch {
  import opened Optional
  import opened JsValues
  import opened Store
  import opened Batching

  /** The provider's limit on tokens per multicast call. */
  const MaxBatch: nat := 500

  /** The two error codes that mark a token as permanently unusable. */
  const NotRegistered: string := "messaging/registration-token-not-registered"
  const InvalidToken: string := "messaging/invalid-registration-token"

  /** One entry of `resp.responses`: `success`, and `error.code` if any. */
  datatype Response = Response(success: bool, errorCode: Option<string>)

  /** What one `sendEachForMulticast` call does: it answers with one response
      per token, or the call itself throws. */
  datatype SendResult = Delivered(responses: seq<Response>) | SendFailed

  /** The message sent with the tokens: the notification's title and body
      and the `data` map. The announcement handler passes its title and body
      through `??` unconverted, so they are field values there. */
  datatype Payload =
    | CalendarMsg(title: string, body: string, data: CalendarData)
    | Announcement(notifTitle: JsValue, notifBody: JsValue, courseKey: string, courseId: string, announcementId: string)

  /** The `data` map of the two calendar notifications; `ownerId` is only
      in the reminder's. */
  datatype CalendarData = CalendarData(
    kind: string, itemType: string, scope: string, eventId: string,
    courseCode: string, facultyId: string, ownerId: Option<string>)

  /** One recorded provider call. */
  datatype Multicast = Multicast(tokens: seq<string>, payload: Payload)

  /** `r.error?.code || ""` */
  function CodeOf(r: Response): string {
    match r.errorCode
    case Some(c) => c
    case None => ""
  }

  /** The test the dispatcher applies to each response. */
  predicate IsPermanentlyInvalid(r: Response) {
    !r.success && (CodeOf(r) == NotRegistered || CodeOf(r) == InvalidToken)
  }

  /** The provider answers a delivered call with one response per token, in
      token order. */
  ghost predicate Aligned(respond: seq<string> -> SendResult) {
    forall b :: respond(b).Delivered? ==> |respond(b).responses| == |b|
  }

  /** `group.map(x => x.token)` */
  function TokensOf(group: seq<Registration>): (r: seq<string>)
    ensures |r| == |group|
    ensures forall i :: 0 <= i < |group| ==> r[i] == group[i].token
  {
    if group == [] then [] else TokensOf(group[..|group| - 1]) + [group[|group| - 1].token]
  }

  /** The handles `toDelete` collects while walking the responses of one
      group: the registration at the same index as each permanently-invalid
      response, in index order. */
  function ScheduledDeletions(group: seq<Registration>, resps: seq<Response>): seq<Ref>
    requires |resps| <= |group|
  {
    if resps == [] then []
    else
      var idx := |resps| - 1;
      ScheduledDeletions(group, resps[..idx]) + (if IsPermanentlyInvalid(resps[idx]) then [group[idx].ref] else [])
  }

  /** The response at `idx` is permanently invalid and `ref` is the handle
      of the registration at `idx`. */
  predicate MarksAt(group: seq<Registration>, resps: seq<Response>, idx: int, ref: Ref) {
    0 <= idx < |resps| && idx < |group| && IsPermanentlyInvalid(resps[idx]) && group[idx].ref == ref
  }

  /** A handle is scheduled exactly when the response at its index failed
      with one of the two permanent codes: a successful response, any other
      code and a missing code never lead to a deletion. */
  lemma {:induction false} ScheduledMember(group: seq<Registration>, resps: seq<Response>, ref: Ref)
    requires |resps| <= |group|
    ensures ref in ScheduledDeletions(group, resps) <==> exists idx :: MarksAt(group, resps, idx, ref)
  {
    if resps != [] {
      var n := |resps| - 1;
      ScheduledMember(group, resps[..n], ref);
      if ref in ScheduledDeletions(group, resps) && ref !in ScheduledDeletions(group, resps[..n]) {
        assert MarksAt(group, resps, n, ref);
      }
      if exists idx :: MarksAt(group, resps, idx, ref) {
        var idx :| MarksAt(group, resps, idx, ref);
        if idx < n {
          assert resps[..n][idx] == resps[idx];
          assert MarksAt(group, resps[..n], idx, ref);
        }
      }
      if ref in ScheduledDeletions(group, resps[..n]) {
        var idx :| MarksAt(group, resps[..n], idx, ref);
        assert resps[..n][idx] == resps[idx];
        assert MarksAt(group, resps, idx, ref);
      }
    }
  }

  lemma {:induction false} ScheduledNone(group: seq<Registration>, resps: seq<Response>)
    requires |resps| <= |group|
    requires forall i :: 0 <= i < |resps| ==> !IsPermanentlyInvalid(resps[i])
    ensures ScheduledDeletions(group, resps) == []
  {
    if resps != [] {
      ScheduledNone(group, resps[..|resps| - 1]);
    }
  }

  /** When exactly one response is permanently invalid, exactly its handle is
      scheduled. */
  lemma {:induction false} ScheduledSingle(group: seq<Registration>, resps: seq<Response>, k: nat)
    requires |resps| <= |group| && k < |resps|
    requires IsPermanentlyInvalid(resps[k])
    requires forall i :: 0 <= i < |resps| && i != k ==> !IsPermanentlyInvalid(resps[i])
    ensures ScheduledDeletions(group, resps) == [group[k].ref]
  {
    var n := |resps| - 1;
    if k == n {
      ScheduledNone(group, resps[..n]);
    } else {
      ScheduledSingle(group, resps[..n], k);
    }
  }

  /** The `resp.responses.forEach(...)` walk that fills `toDelete`. */
  method CollectDeletions(group: seq<Registration>, rs: seq<Response>) returns (toDelete: seq<Ref>)
    requires |rs| <= |group|
    ensures toDelete == ScheduledDeletions(group, rs)
  {
    toDelete := [];
    for idx := 0 to |rs|
      invariant toDelete == ScheduledDeletions(group, rs[..idx])
    {
      assert rs[..idx + 1][..idx] == rs[..idx];
      var r := rs[idx];
      if !r.success {
        var code := CodeOf(r);
        if code == NotRegistered || code == InvalidToken {
          toDelete := toDelete + [group[idx].ref];
        }
      }
    }
    assert rs[..|rs|] == rs;
  }

  /** A group whose fourth token is "not registered" and whose eighth hit an
      internal error gets exactly one deletion, of the fourth registration. */
  lemma ScheduledExample(group: seq<Registration>)
    requires |group| == 8
    ensures var ok := Response(true, None);
      ScheduledDeletions(group, [ok, ok, ok, Response(false, Some(NotRegistered)), ok, ok, ok,
        Response(false, Some("messaging/internal-error"))]) == [group[3].ref]
  {
    var ok := Response(true, None);
    var rs := [ok, ok, ok, Response(false, Some(NotRegistered)), ok, ok, ok, Response(false, Some("messaging/internal-error"))];
    assert "messaging/internal-error" != NotRegistered && "messaging/internal-error" != InvalidToken;
    ScheduledSingle(group, rs, 3);
  }

  /** What a dispatch did: the calls it made, in order, the handles it
      scheduled for deletion, in order, and whether every call returned. */
  datatype Outcome = Outcome(sends: seq<Multicast>, scheduled: seq<Ref>, ok: bool)

  /** The loop over the groups: send each group's tokens with the payload,
      schedule the handles at the invalid positions, and stop at the first
      send call that throws. */
  function RunGroups(groups: seq<seq<Registration>>, payload: Payload, respond: seq<string> -> SendResult): (r: Outcome)
    requires Aligned(respond)
    ensures |r.sends| <= |groups|
  {
    if groups == [] then Outcome([], [], true)
    else
      var t := TokensOf(groups[0]);
      match respond(t)
      case SendFailed => Outcome([Multicast(t, payload)], [], false)
      case Delivered(rs) =>
        var rest := RunGroups(groups[1..], payload, respond);
        Outcome([Multicast(t, payload)] + rest.sends, ScheduledDeletions(groups[0], rs) + rest.scheduled, rest.ok)
  }

  /** One step of the loop over the groups, from group `i` on. */
  lemma RunGroupsStep(groups: seq<seq<Registration>>, i: nat, payload: Payload, respond: seq<string> -> SendResult)
    requires Aligned(respond) && i < |groups|
    ensures var t := TokensOf(groups[i]);
      respond(t).SendFailed? ==> RunGroups(groups[i..], payload, respond) == Outcome([Multicast(t, payload)], [], false)
    ensures var t := TokensOf(groups[i]);
      var rest := RunGroups(groups[i + 1..], payload, respond);
      respond(t).Delivered? ==> (RunGroups(groups[i..], payload, respond) ==
        Outcome([Multicast(t, payload)] + rest.sends, ScheduledDeletions(groups[i], respond(t).responses) + rest.scheduled, rest.ok))
  {
    assert groups[i..][0] == groups[i] && groups[i..][1..] == groups[i + 1..];
  }

  /** Send calls that carry the same payload and stop at the first one that
      throws. */
  datatype Attempt = Attempt(sends: seq<Multicast>, ok: bool)

  function Multisend(batches: seq<seq<string>>, payload: Payload, respond: seq<string> -> SendResult): Attempt {
    if batches == [] then Attempt([], true)
    else if respond(batches[0]).SendFailed? then Attempt([Multicast(batches[0], payload)], false)
    else
      var rest := Multisend(batches[1..], payload, respond);
      Attempt([Multicast(batches[0], payload)] + rest.sends, rest.ok)
  }

  /** The calls made are the batches in order, each with the payload, and
      no more calls than batches. */
  lemma {:induction false} MultisendCalls(batches: seq<seq<string>>, payload: Payload, respond: seq<string> -> SendResult)
    ensures var m := Multisend(batches, payload, respond);
      |m.sends| <= |batches| && forall j :: 0 <= j < |m.sends| ==> m.sends[j] == Multicast(batches[j], payload)
  {
    if batches != [] && respond(batches[0]).Delivered? {
      MultisendCalls(batches[1..], payload, respond);
      var m := Multisend(batches[1..], payload, respond);
      forall j | 1 <= j < 1 + |m.sends| ensures batches[j] == batches[1..][j - 1] { }
    }
  }

  /** The calls stop exactly at the first batch whose call throws: all
      batches are sent when none throws, and otherwise the last call made is
      the first one that threw. */
  lemma {:induction false} MultisendStops(batches: seq<seq<string>>, payload: Payload, respond: seq<string> -> SendResult)
    ensures var m := Multisend(batches, payload, respond);
      (m.ok <==> forall i :: 0 <= i < |batches| ==> respond(batches[i]).Delivered?) &&
      (m.ok ==> |m.sends| == |batches|) &&
      (!m.ok ==> (0 < |m.sends| <= |batches| && respond(batches[|m.sends| - 1]).SendFailed? &&
        forall i :: 0 <= i < |m.sends| - 1 ==> respond(batches[i]).Delivered?))
  {
    if batches != [] && respond(batches[0]).Delivered? {
      var rest := batches[1..];
      MultisendStops(rest, payload, respond);
      var m := Multisend(rest, payload, respond);
      assert forall i :: 0 <= i < |rest| ==> rest[i] == batches[i + 1];
      if !m.ok {
        assert forall i :: 1 <= i < |batches| ==> batches[i] == rest[i - 1];
      } else {
        assert forall i :: 0 <= i < |batches| ==> respond(batches[i]).Delivered? by {
          forall i | 0 <= i < |batches| ensures respond(batches[i]).Delivered? {
            if i > 0 {
              assert batches[i] == rest[i - 1];
            }
          }
        }
      }
    }
  }

  /** `groups.map(g => g.map(x => x.token))` */
  function TokenLists(groups: seq<seq<Registration>>): (r: seq<seq<string>>)
    ensures |r| == |groups|
    ensures forall j :: 0 <= j < |groups| ==> r[j] == TokensOf(groups[j])
  {
    if groups == [] then [] else [TokensOf(groups[0])] + TokenLists(groups[1..])
  }

  /** Which calls a dispatch makes does not depend on the deletions: they are
      the groups' token lists, sent until one call throws. */
  lemma {:induction false} RunGroupsSends(groups: seq<seq<Registration>>, payload: Payload, respond: seq<string> -> SendResult)
    requires Aligned(respond)
    ensures RunGroups(groups, payload, respond).sends == Multisend(TokenLists(groups), payload, respond).sends
    ensures RunGroups(groups, payload, respond).ok == Multisend(TokenLists(groups), payload, respond).ok
  {
    if groups != [] {
      RunGroupsSends(groups[1..], payload, respond);
      assert TokenLists(groups)[1..] == TokenLists(groups[1..]);
    }
  }

  /** Group `g` was sent, its call returned, and its response at position
      `idx` marks the handle `ref` for deletion. */
  ghost predicate FlaggedAt(groups: seq<seq<Registration>>, sentCount: nat, respond: seq<string> -> SendResult,
                            g: int, idx: int, ref: Ref)
    requires Aligned(respond)
  {
    0 <= g < |groups| && g < sentCount && respond(TokensOf(groups[g])).Delivered? &&
    MarksAt(groups[g], respond(TokensOf(groups[g])).responses, idx, ref)
  }

  /** Flags in the groups after the first are flags of the rest, shifted by one. */
  lemma FlaggedShift(groups: seq<seq<Registration>>, sentCount: nat, respond: seq<string> -> SendResult,
                     g: int, idx: int, ref: Ref)
    requires Aligned(respond) && |groups| > 0 && sentCount > 0 && g >= 0
    ensures FlaggedAt(groups, sentCount, respond, g + 1, idx, ref) <==>
      FlaggedAt(groups[1..], sentCount - 1, respond, g, idx, ref)
  {
    if 0 <= g < |groups| - 1 {
      assert groups[1..][g] == groups[g + 1];
    }
  }

  /** A handle is scheduled exactly when some group that was sent got a
      permanently-invalid response at that handle's position. */
  lemma {:induction false} RunGroupsScheduledMember(groups: seq<seq<Registration>>, payload: Payload,
                                                   respond: seq<string> -> SendResult, ref: Ref)
    requires Aligned(respond)
    ensures var n := |RunGroups(groups, payload, respond).sends|;
      ref in RunGroups(groups, payload, respond).scheduled <==> exists g, idx :: FlaggedAt(groups, n, respond, g, idx, ref)
  {
    if groups != [] {
      if respond(TokensOf(groups[0])).Delivered? {
        RunGroupsScheduledMember(groups[1..], payload, respond, ref);
        ScheduledMemberCons(groups, payload, respond, ref);
      } else {
        var n := |RunGroups(groups, payload, respond).sends|;
        assert n == 1;
        assert forall g, idx :: !FlaggedAt(groups, n, respond, g, idx, ref);
      }
    }
  }

  /** The step of `RunGroupsScheduledMember` for a first group whose call returned. */
  lemma ScheduledMemberCons(groups: seq<seq<Registration>>, payload: Payload,
                            respond: seq<string> -> SendResult, ref: Ref)
    requires Aligned(respond) && groups != [] && respond(TokensOf(groups[0])).Delivered?
    requires var dr := RunGroups(groups[1..], payload, respond);
      ref in dr.scheduled <==> exists g, idx :: FlaggedAt(groups[1..], |dr.sends|, respond, g, idx, ref)
    ensures var n := |RunGroups(groups, payload, respond).sends|;
      ref in RunGroups(groups, payload, respond).scheduled <==> exists g, idx :: FlaggedAt(groups, n, respond, g, idx, ref)
  {
    var rs := respond(TokensOf(groups[0])).responses;
    var d := RunGroups(groups, payload, respond);
    var dr := RunGroups(groups[1..], payload, respond);
    var n := |d.sends|;
    assert n == |dr.sends| + 1;
    assert d.scheduled == ScheduledDeletions(groups[0], rs) + dr.scheduled;
    ScheduledMember(groups[0], rs, ref);
    if ref in d.scheduled {
      if ref in ScheduledDeletions(groups[0], rs) {
        var idx :| MarksAt(groups[0], rs, idx, ref);
        assert FlaggedAt(groups, n, respond, 0, idx, ref);
      } else {
        var g, idx :| FlaggedAt(groups[1..], n - 1, respond, g, idx, ref);
        FlaggedShift(groups, n, respond, g, idx, ref);
      }
    }
    if exists g, idx :: FlaggedAt(groups, n, respond, g, idx, ref) {
      var g, idx :| FlaggedAt(groups, n, respond, g, idx, ref);
      if g > 0 {
        FlaggedShift(groups, n, respond, g - 1, idx, ref);
      }
    }
  }

  function SetOf(s: seq<Ref>): set<Ref> {
    set r | r in s
  }

  /** The whole effect of `sendToTokenRefs(regs, payload)`: the store after
      the deletions that succeeded, the calls made, and whether it returned
      normally. */
  datatype Effect = Effect(db: Directory, sends: seq<Multicast>, ok: bool)

  function Deliver(db: Directory, regs: seq<Registration>, payload: Payload,
                   respond: seq<string> -> SendResult, rejected: set<Ref>): Effect
    requires Aligned(respond)
  {
    var d := RunGroups(Chunks(regs, MaxBatch), payload, respond);
    Effect(Prune(db, SetOf(d.scheduled) - rejected), d.sends, d.ok)
  }

  /** No registrations: no provider call and no deletion. */
  lemma DeliverNothing(db: Directory, payload: Payload, respond: seq<string> -> SendResult, rejected: set<Ref>)
    requires Aligned(respond)
    ensures Deliver(db, [], payload, respond, rejected) == Effect(db, [], true)
  {
    assert SetOf([]) - rejected == {};
    PruneNothing(db);
  }

  /** The calls follow the batching: the j-th call carries the tokens of the
      j-th group of 500, in order, the calls stop only at a call that throws,
      and when none throws there are ceil(n / 500) of them. */
  lemma DeliverCalls(db: Directory, regs: seq<Registration>, payload: Payload,
                     respond: seq<string> -> SendResult, rejected: set<Ref>)
    requires Aligned(respond)
    ensures var e := Deliver(db, regs, payload, respond, rejected);
      var groups := Chunks(regs, MaxBatch);
      |e.sends| <= |groups| &&
      (forall j :: 0 <= j < |e.sends| ==>
        e.sends[j] == Multicast(TokensOf(groups[j]), payload) && 0 < |e.sends[j].tokens| <= MaxBatch) &&
      (e.ok <==> forall j :: 0 <= j < |groups| ==> respond(TokensOf(groups[j])).Delivered?) &&
      (e.ok ==> |e.sends| == CeilDiv(|regs|, MaxBatch)) &&
      (!e.ok ==> |e.sends| > 0 && respond(e.sends[|e.sends| - 1].tokens).SendFailed?)
  {
    var groups := Chunks(regs, MaxBatch);
    ChunksPartition(regs, MaxBatch);
    RunGroupsCalls(groups, payload, respond);
    var d := RunGroups(groups, payload, respond);
    var e := Deliver(db, regs, payload, respond, rejected);
    assert e.sends == d.sends && e.ok == d.ok;
  }

  /** 1200 registrations go out in three calls of 500, 500 and 200 tokens,
      and the call completes when the provider accepts every call. */
  lemma Deliver1200(db: Directory, regs: seq<Registration>, payload: Payload,
                    respond: seq<string> -> SendResult, rejected: set<Ref>)
    requires Aligned(respond) && |regs| == 1200
    requires forall b :: respond(b).Delivered?
    ensures var e := Deliver(db, regs, payload, respond, rejected);
      e.ok && |e.sends| == 3 &&
      |e.sends[0].tokens| == 500 && |e.sends[1].tokens| == 500 && |e.sends[2].tokens| == 200
  {
    DeliverCalls(db, regs, payload, respond, rejected);
    Chunks1200(regs);
    CeilDiv500(1200);
  }

  /** The calls of the dispatch loop over groups of at most 500 registrations. */
  lemma RunGroupsCalls(groups: seq<seq<Registration>>, payload: Payload, respond: seq<string> -> SendResult)
    requires Aligned(respond)
    requires forall j :: 0 <= j < |groups| ==> 0 < |groups[j]| <= MaxBatch
    ensures var d := RunGroups(groups, payload, respond);
      |d.sends| <= |groups| &&
      (forall j :: 0 <= j < |d.sends| ==>
        d.sends[j] == Multicast(TokensOf(groups[j]), payload) && 0 < |d.sends[j].tokens| <= MaxBatch) &&
      (d.ok <==> forall j :: 0 <= j < |groups| ==> respond(TokensOf(groups[j])).Delivered?) &&
      (d.ok ==> |d.sends| == |groups|) &&
      (!d.ok ==> |d.sends| > 0 && respond(d.sends[|d.sends| - 1].tokens).SendFailed?)
  {
    RunGroupsSends(groups, payload, respond);
    var lists := TokenLists(groups);
    MultisendCalls(lists, payload, respond);
    MultisendStops(lists, payload, respond);
    assert (forall j :: 0 <= j < |groups| ==> respond(TokensOf(groups[j])).Delivered?) <==>
      (forall i :: 0 <= i < |lists| ==> respond(lists[i]).Delivered?);
  }

  /** The store loses exactly the registrations whose handles were scheduled
      and whose deletion did not fail; a failed deletion leaves its own
      registration and affects no other. */
  lemma DeliverPrunes(db: Directory, regs: seq<Registration>, payload: Payload,
                      respond: seq<string> -> SendResult, rejected: set<Ref>, uid: Uid, r: Registration)
    requires Aligned(respond)
    ensures var e := Deliver(db, regs, payload, respond, rejected);
      var d := RunGroups(Chunks(regs, MaxBatch), payload, respond);
      r in UserTokens(e.db, uid) <==> r in UserTokens(db, uid) && (r.ref !in d.scheduled || r.ref in rejected)
  {
    var d := RunGroups(Chunks(regs, MaxBatch), payload, respond);
    PrunedTokens(db, SetOf(d.scheduled) - rejected, uid, r);
  }

  /** What the groups already handled add in front of the outcome of the rest.
      The three loops of the model each prepend the steps already done to the
      result of the rest, over their own result type: `After` here also
      carries the scheduled deletions, `Calendar.ThenRest` the store an
      `Effect` ends in, and `Announcements.Prepend` neither, since an
      `Attempt` holds only calls and completion. */
  function After(sends: seq<Multicast>, scheduled: seq<Ref>, rest: Outcome): Outcome {
    Outcome(sends + rest.sends, scheduled + rest.scheduled, rest.ok)
  }

  lemma AfterEmpty(sends: seq<Multicast>, scheduled: seq<Ref>)
    ensures After(sends, scheduled, Outcome([], [], true)) == Outcome(sends, scheduled, true)
  {
    assert sends + [] == sends && scheduled + [] == scheduled;
  }

  lemma AfterFailed(sends: seq<Multicast>, scheduled: seq<Ref>, m: Multicast)
    ensures After(sends, scheduled, Outcome([m], [], false)) == Outcome(sends + [m], scheduled, false)
  {
    assert scheduled + [] == scheduled;
  }

  lemma AfterDelivered(sends: seq<Multicast>, scheduled: seq<Ref>, m: Multicast, dels: seq<Ref>, rest: Outcome)
    ensures After(sends, scheduled, Outcome([m] + rest.sends, dels + rest.scheduled, rest.ok)) ==
      After(sends + [m], scheduled + dels, rest)
  {
    assert sends + ([m] + rest.sends) == (sends + [m]) + rest.sends;
    assert scheduled + (dels + rest.scheduled) == (scheduled + dels) + rest.scheduled;
  }

  lemma PruneAfterMore(db: Directory, done: seq<Ref>, more: seq<Ref>, rejected: set<Ref>)
    ensures Prune(Prune(db, SetOf(done) - rejected), SetOf(more) - rejected) == Prune(db, SetOf(done + more) - rejected)
  {
    PruneCompose(db, SetOf(done) - rejected, SetOf(more) - rejected);
    assert (SetOf(done) - rejected) + (SetOf(more) - rejected) == SetOf(done + more) - rejected;
  }

  /** Firestore and Firebase Messaging as one object. `respond` is the
      provider's answer to a call with those tokens; `rejected` holds the
      handles whose deletion fails. */
  class Backend {
    var db: Directory
    var sent: seq<Multicast>
    const respond: seq<string> -> SendResult
    const rejected: set<Ref>

    ghost predicate Valid()
      reads this
    {
      Aligned(respond)
    }

    constructor (db0: Directory, respond0: seq<string> -> SendResult, rejected0: set<Ref>)
      requires Aligned(respond0)
      ensures Valid()
      ensures db == db0 && sent == [] && respond == respond0 && rejected == rejected0
    {
      db, sent := db0, [];
      respond, rejected := respond0, rejected0;
    }

    /** `admin.messaging().sendEachForMulticast(...)`: the call is logged and
        the provider answers it. */
    method Send(tokens: seq<string>, payload: Payload) returns (res: SendResult)
      modifies this
      ensures db == old(db)
      ensures sent == old(sent) + [Multicast(tokens, payload)]
      ensures res == respond(tokens)
    {
      sent := sent + [Multicast(tokens, payload)];
      res := respond(tokens);
    }

    /** `ref.delete()`: removes the token document unless the deletion fails. */
    method Delete(ref: Ref) returns (ok: bool)
      modifies this
      ensures sent == old(sent)
      ensures ok == (ref !in rejected)
      ensures db == if ok then Prune(old(db), {ref}) else old(db)
    {
      ok := ref !in rejected;
      if ok {
        db := Prune(db, {ref});
      }
    }

    /** `await Promise.allSettled(toDelete)`, one deletion after another: every
        deletion is attempted whatever happened to the ones before. */
    method DeleteAll(toDelete: seq<Ref>)
      modifies this
      ensures sent == old(sent)
      ensures db == Prune(old(db), SetOf(toDelete) - rejected)
    {
      ghost var db0 := db;
      assert SetOf(toDelete[..0]) - rejected == {};
      PruneNothing(db0);
      for j := 0 to |toDelete|
        invariant sent == old(sent)
        invariant db == Prune(db0, SetOf(toDelete[..j]) - rejected)
      {
        var x := toDelete[j];
        ghost var before := SetOf(toDelete[..j]) - rejected;
        assert SetOf(toDelete[..j + 1]) == SetOf(toDelete[..j]) + {x} by {
          assert toDelete[..j + 1] == toDelete[..j] + [x];
        }
        var deleted := Delete(x);
        if deleted {
          PruneCompose(db0, before, {x});
          assert before + {x} == SetOf(toDelete[..j + 1]) - rejected;
        } else {
          assert before == SetOf(toDelete[..j + 1]) - rejected;
        }
      }
      assert toDelete[..|toDelete|] == toDelete;
    }

    /** The body of the loop over the groups: one multicast call, then the
        deletions its responses call for. */
    method SendGroup(group: seq<Registration>, payload: Payload) returns (delivered: bool, toDelete: seq<Ref>)
      requires Valid()
      modifies this
      ensures sent == old(sent) + [Multicast(TokensOf(group), payload)]
      ensures delivered == respond(TokensOf(group)).Delivered?
      ensures delivered ==> toDelete == ScheduledDeletions(group, respond(TokensOf(group)).responses)
      ensures db == if delivered then Prune(old(db), SetOf(toDelete) - rejected) else old(db)
    {
      var tokens := TokensOf(group);
      var resp := Send(tokens, payload);
      delivered := resp.Delivered?;
      if !delivered {
        return delivered, [];
      }
      toDelete := CollectDeletions(group, resp.responses);
      DeleteAll(toDelete);
    }

    /** `sendToTokenRefs(tokenRefs, payload)` */
    method SendToTokenRefs(regs: seq<Registration>, payload: Payload) returns (ok: bool)
      requires Valid()
      modifies this
      ensures var e := Deliver(old(db), regs, payload, respond, rejected);
        db == e.db && sent == old(sent) + e.sends && ok == e.ok
    {
      if |regs| == 0 {
        DeliverNothing(db, payload, respond, rejected);
        return true;
      }
      var groups := Chunk(regs, MaxBatch);
      ok := SendGroups(groups, payload);
    }

    /** `for (const group of groups) { ... }`, stopping when a send call throws. */
    method SendGroups(groups: seq<seq<Registration>>, payload: Payload) returns (ok: bool)
      requires Valid()
      modifies this
      ensures var d := RunGroups(groups, payload, respond);
        db == Prune(old(db), SetOf(d.scheduled) - rejected) && sent == old(sent) + d.sends && ok == d.ok
    {
      ghost var db0, sent0 := db, sent;
      ghost var sendsSoFar: seq<Multicast> := [];
      ghost var schedSoFar: seq<Ref> := [];
      StartLoop(groups, payload, respond, rejected, db0);
      var i := 0;
      while i < |groups|
        invariant 0 <= i <= |groups|
        invariant Loop(groups, i, payload, respond, rejected, db0, sent0, db, sent, sendsSoFar, schedSoFar)
        decreases |groups| - i
      {
        var delivered;
        delivered, sendsSoFar, schedSoFar := Step(groups, i, payload, db0, sent0, sendsSoFar, schedSoFar);
        if !delivered {
          return false;
        }
        i := i + 1;
      }
      FinishLoop(groups, i, payload, respond, rejected, db0, sent0, db, sent, sendsSoFar, schedSoFar);
      ok := true;
    }

    /** One pass of the loop over the groups. */
    method Step(groups: seq<seq<Registration>>, i: nat, payload: Payload, ghost db0: Directory, ghost sent0: seq<Multicast>,
                ghost sends: seq<Multicast>, ghost scheduled: seq<Ref>)
      returns (delivered: bool, ghost sends': seq<Multicast>, ghost scheduled': seq<Ref>)
      requires Valid() && i < |groups|
      requires Loop(groups, i, payload, respond, rejected, db0, sent0, db, sent, sends, scheduled)
      modifies this
      ensures delivered ==> Loop(groups, i + 1, payload, respond, rejected, db0, sent0, db, sent, sends', scheduled')
      ensures !delivered ==> Done(groups, payload, respond, rejected, db0, sent0, db, sent)
    {
      var group := groups[i];
      ghost var m := Multicast(TokensOf(group), payload);
      ghost var db1, sent1 := db, sent;
      var toDelete;
      delivered, toDelete := SendGroup(group, payload);
      sends', scheduled' := sends + [m], scheduled + toDelete;
      if !delivered {
        StepFailed(groups, i, payload, respond, rejected, db0, sent0, db1, sent1, sends, scheduled);
      } else {
        StepDelivered(groups, i, payload, respond, rejected, db0, sent0, db1, sent1, sends, scheduled, toDelete);
      }
    }
  }

  /** The state of the loop over the groups after `i` of them: the calls
      made and the handles scheduled so far, in front of what the remaining
      groups will do, make up the dispatch of all of them; the log holds the
      calls made and the store has lost the handles scheduled. */
  ghost predicate Loop(groups: seq<seq<Registration>>, i: nat, payload: Payload, respond: seq<string> -> SendResult,
                       rejected: set<Ref>, db0: Directory, sent0: seq<Multicast>, db: Directory, sent: seq<Multicast>,
                       sends: seq<Multicast>, scheduled: seq<Ref>)
  {
    Aligned(respond) && i <= |groups| &&
    RunGroups(groups, payload, respond) == After(sends, scheduled, RunGroups(groups[i..], payload, respond)) &&
    sent == sent0 + sends && db == Prune(db0, SetOf(scheduled) - rejected)
  }

  /** The dispatch of all groups is over and its effect is in place. */
  ghost predicate Done(groups: seq<seq<Registration>>, payload: Payload, respond: seq<string> -> SendResult,
                       rejected: set<Ref>, db0: Directory, sent0: seq<Multicast>, db: Directory, sent: seq<Multicast>)
  {
    Aligned(respond) &&
    var d := RunGroups(groups, payload, respond);
    db == Prune(db0, SetOf(d.scheduled) - rejected) && sent == sent0 + d.sends && !d.ok
  }

  lemma StartLoop(groups: seq<seq<Registration>>, payload: Payload, respond: seq<string> -> SendResult,
                  rejected: set<Ref>, db0: Directory)
    requires Aligned(respond)
    ensures forall sent0 :: Loop(groups, 0, payload, respond, rejected, db0, sent0, db0, sent0, [], [])
  {
    assert groups[0..] == groups;
    var d := RunGroups(groups, payload, respond);
    assert [] + d.sends == d.sends && [] + d.scheduled == d.scheduled;
    assert SetOf([]) - rejected == {};
    PruneNothing(db0);
  }

  lemma StepFailed(groups: seq<seq<Registration>>, i: nat, payload: Payload, respond: seq<string> -> SendResult,
                   rejected: set<Ref>, db0: Directory, sent0: seq<Multicast>, db: Directory, sent: seq<Multicast>,
                   sends: seq<Multicast>, scheduled: seq<Ref>)
    requires i < |groups|
    requires Loop(groups, i, payload, respond, rejected, db0, sent0, db, sent, sends, scheduled)
    requires respond(TokensOf(groups[i])).SendFailed?
    ensures Done(groups, payload, respond, rejected, db0, sent0, db, sent + [Multicast(TokensOf(groups[i]), payload)])
  {
    RunGroupsStep(groups, i, payload, respond);
    AfterFailed(sends, scheduled, Multicast(TokensOf(groups[i]), payload));
  }

  lemma StepDelivered(groups: seq<seq<Registration>>, i: nat, payload: Payload, respond: seq<string> -> SendResult,
                      rejected: set<Ref>, db0: Directory, sent0: seq<Multicast>, db: Directory, sent: seq<Multicast>,
                      sends: seq<Multicast>, scheduled: seq<Ref>, toDelete: seq<Ref>)
    requires i < |groups|
    requires Loop(groups, i, payload, respond, rejected, db0, sent0, db, sent, sends, scheduled)
    requires respond(TokensOf(groups[i])).Delivered?
    requires toDelete == ScheduledDeletions(groups[i], respond(TokensOf(groups[i])).responses)
    ensures var m := Multicast(TokensOf(groups[i]), payload);
      Loop(groups, i + 1, payload, respond, rejected, db0, sent0, Prune(db, SetOf(toDelete) - rejected), sent + [m],
           sends + [m], scheduled + toDelete)
  {
    RunGroupsStep(groups, i, payload, respond);
    AfterDelivered(sends, scheduled, Multicast(TokensOf(groups[i]), payload), toDelete,
                   RunGroups(groups[i + 1..], payload, respond));
    PruneAfterMore(db0, scheduled, toDelete, rejected);
  }

  lemma FinishLoop(groups: seq<seq<Registration>>, i: nat, payload: Payload, respond: seq<string> -> SendResult,
                   rejected: set<Ref>, db0: Directory, sent0: seq<Multicast>, db: Directory, sent: seq<Multicast>,
                   sends: seq<Multicast>, scheduled: seq<Ref>)
    requires i == |groups|
    requires Loop(groups, i, payload, respond, rejected, db0, sent0, db, sent, sends, scheduled)
    ensures var d := RunGroups(groups, payload, respond);
      db == Prune(db0, SetOf(d.scheduled) - rejected) && sent == sent0 + d.sends && d.ok
  {
    assert groups[i..] == [];
    AfterEmpty(sends, scheduled);
  }
}
