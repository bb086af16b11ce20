# UniGO push fan-out, modelled in Dafny

This project models the push-notification fan-out of the UniGO Cloud Functions:

- **The helpers in `functions/index.js`:**
  - `chunk` cuts a list into pieces of a given size.
  - `sendToTokenRefs` sends registrations in groups of 500. It deletes the registrations that the provider reports as permanently invalid.
  - `isAdminLike` accepts any of five legacy encodings of "admin or higher".
  - `getAllTokensForUser` looks up one user's tokens.
  - `getAllTokensForCourseStudents` and `getAllTokensForFacultyStudents` gather the tokens of a course's or a faculty's users, skipping admin-like users.
- **The scope routing of two handlers in the same file.**
  - `notifyCalendarItemCreated` calls `sendToTokenRefs` once when a calendar item is created, which makes one provider call per group of 500.
  - `sendTomorrowCalendarReminders` loops over the items due tomorrow.
- **The announcement handler `notifyCourseAnnouncement` of `functions/src/index.ts`.**
  - It chooses the course key and the title and body defaults.
  - It collects token fields.
  - It sends in slices of 500, and never prunes.

## How the model is built

- **Firestore** is one immutable value, `Store.Directory`. It holds:
  - the `users` documents;
  - the `users/{uid}/fcmTokens` sub-collections in store order, kept apart from `users` because a sub-collection exists whether or not its parent document does;
  - the `roles` and `courses` collections;
  - `uids`, the order in which queries return user documents.
- **Firebase Messaging** is the `Dispatch.Backend` class.
  - `db` is the current store, and `sent` is the log of every multicast call made.
  - `respond` is a fixed provider function. It either answers a call with one response per token, or makes the call throw (`SendFailed`).
  - `rejected` is the set of token documents whose deletion fails.
- **What a handler does** is specified by a pure function of the initial store:
  - `Deliver` for `sendToTokenRefs`;
  - `CreatedEffect` and `Reminders` for the calendar handlers;
  - `AnnouncementEffect` for the announcement handler.

  Each function gives the final store, the calls made and whether the handler returned normally. The imperative methods follow the source's loops, with `i += size`, `push` and early `return`/`continue`. Each is proved to produce exactly that effect.
- **Messages** are modelled in full: the calendar handlers' titles, bodies and `data` fields, text included, and the announcement's title, body and `data` fields.
- **A rejected promise** is `ok == false`. This covers a send call that throws, which ends `sendToTokenRefs` and every handler above it.
- **Field values** are `JsValues.JsValue`.
  - JavaScript's `||`, `??`, `toString()`, `typeof x === "string"` and `trim()` are written out.
  - `trim()` removes exactly the ECMAScript white-space and line-terminator characters.

## Behaviour of the code worth noting

- **Role encodings.** `isAdminLike` tests five encodings of "admin or higher".
  - They are `role == "admin"`, `role == "superAdmin"`, `admin === true`, `level == "super"` and `super_admin === true`.
  - The field `superAdmin` of `Store.RoleRecord` stands for `super_admin`.
- **Lists, not sets.** The aggregators return lists in query order and keep duplicate tokens, and so does the model.
- **Calendar routing.** The creation handler routes every scope other than "personal" and "course" to the faculty lookup, not only "global". `Calendar.OtherScopesAreGlobal` states this.
- **What counts as the token.** `functions/index.js` takes the token document's id as the token. `functions/src/index.ts` takes the document's `token` field. Both are modelled: `Store.TokenDoc` has `id` and `token`.

## Model

| member | source | states |
|---|---|---|
| JsValues.Nullish | functions/src/index.ts:29-31 | what `??` tests: `null` or `undefined` (also at functions/src/index.ts:45) |
| JsValues.Truthy | functions/index.js:97-99 | what the logical-or default tests: false for `undefined`, `null`, `false`, `0` and `""`, true otherwise (also at functions/index.js:107-108 and 158-164) |
| JsValues.Show | functions/index.js:97-99 | `.toString()` of a field value: the string itself, "true"/"false", an integer in decimal with its sign |
| JsValues.OrDefault | functions/index.js:97-99 | `.toString()` of the field or its default: the shown value when it is truthy, else the default (also at functions/index.js:107-108 and 158-164) |
| JsValues.Coalesce | functions/src/index.ts:29-31 | `a ?? b`: `b` exactly when `a` is null or undefined (also at functions/src/index.ts:45) |
| JsValues.TrimStart | functions/src/index.ts:46-47 | a suffix of the input that does not start with white space; every character cut off is white space |
| JsValues.TrimEnd | functions/src/index.ts:46-47 | a prefix of the input that does not end with white space; every character cut off is white space |
| JsValues.Trim | functions/src/index.ts:46-47 | `s.trim()`: white space cut off at both ends |
| JsValues.TrimShape | functions/src/index.ts:46-47 | `trim()` returns the infix of its input that starts and ends with a non-space character; every character cut off on either side is white space |
| JsValues.TrimEmptyIff | functions/src/index.ts:46 | `s.trim().length > 0` holds exactly when `s` has a character that is not white space |
| JsValues.TrimIdempotent | functions/src/index.ts:47 | trimming the trimmed key again changes nothing |
| Batching.Chunks | functions/index.js:10-14 | `chunk(arr, size)` as a value: the first `size` elements, then the pieces of the rest; one piece when at most `size` remain; none for an empty list |
| Batching.Chunk | functions/index.js:10-14 | the `i += size` loop returns the pieces in order; they concatenate back to the input; there are ceil(n / size) of them; each has 1 to `size` elements and all but the last have exactly `size` |
| Batching.ChunksPartition | functions/index.js:10-14 | the same partition facts, stated for `Chunks`, the function that defines `chunk` |
| Batching.ChunksStep | functions/src/index.ts:83-84 | the slice loop's piece at `i` is `tokens.slice(i, i + 500)`, followed by the pieces of the rest from `min(i + 500, n)` on |
| Batching.CeilDiv500 | functions/index.js:19 | the number of groups of 500 is (n + 499) / 500 |
| Batching.Chunks1200 | functions/index.js:19 | 1200 items give pieces of 500, 500 and 200 |
| Store.IsAdminLike | functions/index.js:46-57 | `isAdminLike(uid)`: false without a `roles/{uid}` record; otherwise `role === "admin"`, `role === "superAdmin"`, `admin === true`, `level === "super"` or `super_admin === true` |
| Store.RoleAdminLike | functions/index.js:49-56 | the test on an existing role record: the union of the five `===` comparisons |
| Store.AdminLikeIffSomeEncoding | functions/index.js:46-57 | `isAdminLike` is false without a role record, and otherwise true exactly when one of the five encodings holds |
| Store.AdminLikeIsStrict | functions/index.js:50-56 | `===` does no coercion: "Admin", "true", "Super" and the number 1 are not admin-like |
| Store.TokenDocsOf | functions/index.js:60 | the `users/{uid}/fcmTokens` sub-collection, read whether or not `users/{uid}` exists; empty when it has no documents |
| Store.Regs | functions/index.js:61 | `snap.docs.map(d => ({ token: d.id, ref: d.ref }))`: one registration per document, same length, the i-th built from the i-th document |
| Store.UserTokens | functions/index.js:59-62 | one registration per token document, in store order, with the document id as token and the document as deletion handle |
| Store.UserTokensIgnoreRoles | functions/index.js:59-62 | the personal lookup does not read the role collection, nor the `users/{uid}` document: the sub-collection is found without its parent |
| Store.Keep | functions/index.js:38 | the token documents of a user that survive a set of deletions, in store order, never more than before |
| Store.Prune | functions/index.js:38-42 | deleting token documents changes only the `fcmTokens` sub-collections: users, roles, courses and query order stay, and a well-formed store stays well-formed |
| Store.KeepMember | functions/index.js:38 | a token document survives a set of deletions exactly when its handle is not in the set |
| Store.PruneNothing | functions/index.js:42 | deleting nothing leaves the store unchanged |
| Store.PruneCompose | functions/index.js:42 | deleting `a` and then `b` equals deleting `a + b`, so sequential deletions add up |
| Store.PrunedTokens | functions/index.js:38 | after deletions a user's registration remains exactly when it was there before and its handle was not deleted |
| Store.WellFormed | functions/index.js:65-68 | the stores Firestore can hold: `uids` lists every `users` document once and nothing else |
| Aggregation.Matches | functions/index.js:65-68 | `array-contains` of the course code on `enrolledCourses`, and `==` on `facultyId` (functions/index.js:82; also the announcement query of functions/src/index.ts:54) |
| Aggregation.Select | functions/index.js:65-68 | a query returns exactly the existing users that match the `where` clause |
| Aggregation.Where | functions/index.js:65-68 | `db.collection("users").where(...).get()`: the matching user documents in query order |
| Aggregation.SelectDistinct | functions/index.js:65-68 | a query over a list without repeats returns no user twice |
| Aggregation.WhereExactlyOnce | functions/index.js:65-68 | on a well-formed store a query returns every matching user document exactly once, and no other |
| Aggregation.StudentTokens | functions/index.js:70-77 | the aggregators' loop as a value: for each matched user that is not admin-like, its registrations, in user then document order |
| Aggregation.Eligible | functions/index.js:71-72 | the matched users minus the admin-like ones, in order |
| Aggregation.Expand | functions/index.js:74-75 | the users' registrations concatenated, with no de-duplication |
| Aggregation.StudentTokensFactor | functions/index.js:70-77 | the fused aggregator loop equals resolving the non-admin recipients, then expanding them into tokens |
| Aggregation.EligibleMember | functions/index.js:71-72 | the recipients are exactly the matched users that are not admin-like |
| Aggregation.ExpandLength | functions/index.js:75 | expanding drops and merges nothing: the count is the sum of the users' token-document counts |
| Aggregation.StudentTokensMember | functions/index.js:70-77 | a registration is returned exactly when its owner matched, is not admin-like and owns it |
| Aggregation.CollectStudentTokens | functions/index.js:70-77 | the loop with `continue` for admin-like users builds exactly the aggregator's result |
| Aggregation.PushDocs | functions/index.js:75 | `forEach`/`push` appends one `{ token: d.id, ref: d.ref }` per token document, in order |
| Aggregation.GetAllTokensForCourseStudents | functions/index.js:64-78 | returns the expansion of the enrolled non-admin users; the count is their total token count; a registration is returned exactly when its owner is enrolled, not admin-like and owns it |
| Aggregation.GetAllTokensForFacultyStudents | functions/index.js:81-92 | the same for the users whose `facultyId` equals the given one |
| Aggregation.CourseScenario | functions/index.js:64-78 | three enrolled users, one an admin, two with two tokens each: two recipients and four registrations |
| Aggregation.ScenarioWellFormed | functions/index.js:65-68 | the scenario's store is well-formed, so its query result is Firestore's |
| Dispatch.TokensOf | functions/index.js:21 | `group.map(x => x.token)` keeps length and order |
| Dispatch.CodeOf | functions/index.js:33 | `r.error?.code || ""`: the error code, or the empty string when there is none |
| Dispatch.IsPermanentlyInvalid | functions/index.js:32-37 | a response that failed with "messaging/registration-token-not-registered" or "messaging/invalid-registration-token" |
| Dispatch.ScheduledDeletions | functions/index.js:30-41 | the handles at the positions of a group whose response is permanently invalid, in index order |
| Dispatch.ScheduledMember | functions/index.js:31-41 | a handle is scheduled exactly when the response at its index failed with one of the two permanent codes; success, other codes and a missing code (read as "") never schedule |
| Dispatch.ScheduledNone | functions/index.js:31-41 | without a permanently invalid response nothing is scheduled |
| Dispatch.ScheduledSingle | functions/index.js:38 | when one response is permanently invalid, exactly the handle at that index is scheduled |
| Dispatch.ScheduledExample | functions/index.js:31-41 | an eight-token group with a "not registered" fourth and an internal-error eighth response schedules only the fourth handle |
| Dispatch.CollectDeletions | functions/index.js:30-41 | the `forEach` walk fills `toDelete` with exactly the scheduled handles, in index order |
| Dispatch.RunGroups | functions/index.js:20-43 | the loop over the groups: each group's tokens are sent with the payload, its invalid handles scheduled, and the loop stops at the first call that throws; never more calls than groups |
| Dispatch.Multisend | functions/src/index.ts:83-101 | send calls over a list of batches with one payload, ending at the first call that throws |
| Dispatch.RunGroupsStep | functions/index.js:20-43 | one pass of the group loop: a throwing call stops the loop; otherwise its deletions come before those of the remaining groups |
| Dispatch.MultisendCalls | functions/index.js:20-27 | the calls are the batches in order, each with the payload, and no more calls than batches |
| Dispatch.MultisendStops | functions/index.js:20-27 | the calls stop exactly at the first batch whose call throws: all are sent when none throws, and otherwise the last call made is the first one that threw |
| Dispatch.RunGroupsSends | functions/index.js:20-27 | the dispatcher's calls, and whether it completes, are those of sending the groups' token lists |
| Dispatch.RunGroupsScheduledMember | functions/index.js:20-43 | a handle is scheduled exactly when a group whose call returned got a permanently invalid response at that handle's position |
| Dispatch.Deliver | functions/index.js:16-44 | the effect of `sendToTokenRefs`: the dispatch over the groups of 500, and the store with the scheduled deletions that did not fail applied |
| Dispatch.DeliverNothing | functions/index.js:17 | an empty list makes no provider call and deletes nothing |
| Dispatch.DeliverCalls | functions/index.js:19-27 | the j-th call carries the tokens of the j-th group of 500 in order; calls stop only at a call that throws; with no throw there are ceil(n / 500) calls |
| Dispatch.Deliver1200 | functions/index.js:19-27 | 1200 registrations go out in calls of 500, 500 and 200 tokens |
| Dispatch.RunGroupsCalls | functions/index.js:20-27 | calls over groups of at most 500: in group order, each non-empty and at most 500 tokens |
| Dispatch.DeliverPrunes | functions/index.js:38-42 | the store loses exactly the scheduled registrations whose deletion did not fail; a failed deletion affects no other |
| Dispatch.Backend.Send | functions/index.js:23-27 | a multicast call is logged and answered by the provider, and the store is unchanged |
| Dispatch.Backend.Delete | functions/index.js:38 | `ref.delete()` removes exactly that token document, unless the deletion fails |
| Dispatch.Backend.DeleteAll | functions/index.js:42 | `allSettled`: every deletion is attempted; the store loses exactly the deletions that did not fail |
| Dispatch.Backend.SendGroup | functions/index.js:21-42 | one group: one call; if it returns, the scheduled handles and their deletions; if it throws, no deletion |
| Dispatch.Backend.SendGroups | functions/index.js:20-43 | the group loop produces the dispatch's calls, deletions and completion |
| Dispatch.Backend.SendToTokenRefs | functions/index.js:16-44 | `sendToTokenRefs` produces exactly `Deliver`'s store, calls and completion |
| Calendar.ItemOf | functions/index.js:96 | `event.data?.data() || {}`: a missing snapshot reads as the empty document |
| Calendar.FieldsOf | functions/index.js:96-99 | `(data.x || default).toString()` for scope ("global"), type ("Event"), title ("Untitled"), and faculty id, course code and owner id ("") |
| Calendar.CreatedAudience | functions/index.js:101-119 | the creation routing: early return for personal items and types other than Event and Deadline; course students for a course item with a code; faculty students for any other scope with a faculty id |
| Calendar.ReminderAudience | functions/index.js:166-177 | the reminder routing: the owner for a personal item with an owner; otherwise the creation routing without its type filter |
| Calendar.AudienceTokens | functions/index.js:59-92 | the registrations of the chosen lookup: `getAllTokensForUser`, or the course or faculty aggregator |
| Calendar.CreatedPayload | functions/index.js:121-134 | the creation message in full: "New deadline: " or "New event: " and the title; "Course " and the code, or "Faculty-wide"; the `data` fields with type "calendar_created" |
| Calendar.ReminderPayload | functions/index.js:179-198 | the reminder message in full: "Tomorrow: " and the title; "Personal reminder", the type and " • Course " and the code, or the type and " • Faculty-wide"; the `data` fields with type "calendar_tomorrow" and the owner id |
| Calendar.Notify | functions/index.js:121-136 | a routed notification: nothing on an early return, otherwise `sendToTokenRefs` of the lookup's registrations with the message (also functions/index.js:179-200) |
| Calendar.CreatedEffect | functions/index.js:95-137 | the effect of the creation handler: nothing on an early return, else `sendToTokenRefs` of the routed registrations with the creation message |
| Calendar.ReminderEffect | functions/index.js:157-200 | the effect of one pass of the reminder loop: nothing on a `continue`, else `sendToTokenRefs` with the reminder message |
| Calendar.Reminders | functions/index.js:156-201 | the reminder loop: each due item is handled against the store the previous ones left, and the loop ends at the first send call that throws |
| Calendar.CreatedSkipIff | functions/index.js:101-119 | the creation handler returns early exactly for a personal item, a type other than Event and Deadline, a course item without a code, and any other scope without a faculty id |
| Calendar.CreatedSkipSendsNothing | functions/index.js:101-119 | an early return sends nothing and deletes nothing |
| Calendar.MissingItemSendsNothing | functions/index.js:96-99 | a missing document and an empty one (`data()` giving `{}`) both default to scope "global" and type "Event", have no faculty id, and so send nothing |
| Calendar.OtherScopesAreGlobal | functions/index.js:112-119 | any scope other than "personal" and "course" is routed like "global", by both handlers |
| Calendar.ReminderAgreesWithCreated | functions/index.js:166-177 | for a non-personal Event or Deadline, a reminder reaches the same recipients as the creation notice |
| Calendar.ReminderIgnoresType | functions/index.js:166-177 | reminders do not filter on the type |
| Calendar.OwnerOnlyForPersonal | functions/index.js:168-170 | the creation notice never targets one user; a reminder targets the owner exactly for a personal item with an owner |
| Calendar.AudienceTokensMember | functions/index.js:166-177 | the course and faculty routes reach only matching, non-admin users and all of their tokens; the personal route returns every token of the owner, whatever the owner's role |
| Calendar.CourseScenarioOneCall | functions/index.js:112-136 | the three-user course with four student registrations is notified in one provider call |
| Calendar.NotifyCalls | functions/index.js:136 | every call of a routed notification carries the handler's payload; with recipients, at least one call is made |
| Calendar.ReminderEffectPayloads | functions/index.js:179-200 | every call of one reminder carries a "calendar_tomorrow" message about that item |
| Calendar.RemindersPayloads | functions/index.js:156-201 | every call of the reminder loop carries a "calendar_tomorrow" message about one of the due items |
| Calendar.RemindersAllSkipped | functions/index.js:166-177 | when every due item is skipped, the loop sends nothing and deletes nothing |
| Calendar.RemindersSplit | functions/index.js:156-201 | the loop over `xs + ys` is the loop over `xs` followed, only when that completed, by the loop over `ys` from the store `xs` left: after a throw no later item adds a call or changes the store |
| Calendar.RemindersHeadFails | functions/index.js:200 | a first item whose send throws is the whole loop's effect |
| Calendar.RemindersFailAt | functions/index.js:156-201 | when items before `k` completed and item `k`'s send throws, the loop's calls are those items' calls and item `k`'s, and it does not complete |
| Calendar.RemindersFailAfter | functions/index.js:156-201 | the same with the completed items as `xs`: once the first item of `ys` throws, the rest of `ys` adds no call |
| Calendar.RemindersFailIff | functions/index.js:156-201 | the loop fails exactly when some item's send throws after every item before it completed |
| Calendar.SendToAudience | functions/index.js:110-119 | the chosen lookup followed by `sendToTokenRefs` has `Deliver`'s effect on that lookup's registrations |
| Calendar.NotifyCalendarItemCreated | functions/index.js:95-137 | the creation handler has exactly `CreatedEffect`'s store, calls and completion |
| Calendar.RemindOne | functions/index.js:157-200 | the body of the reminder loop for one item has exactly that item's effect |
| Calendar.SendTomorrowCalendarReminders | functions/index.js:154-201 | the loop over the due items has exactly `Reminders`' effect, ending at the first send call that throws |
| Announcements.NotifTitle | functions/src/index.ts:29 | `data.title ?? "New announcement"` |
| Announcements.NotifBody | functions/src/index.ts:30-31 | `data.body ?? data.message ?? data.text ?? "Open UniGO to view."` |
| Announcements.FirstPresentSpec | functions/src/index.ts:29-31 | a `??` chain gives the default exactly when every value is nullish, and otherwise the first value that is not, of whatever type |
| Announcements.NotifFieldsAreChains | functions/src/index.ts:29-31 | the title is `title ?? "New announcement"` and the body is `body ?? message ?? text ?? "Open UniGO to view."` as chains |
| Announcements.NullishKeepsFalsy | functions/src/index.ts:29-31 | an empty title is kept; a string, number or boolean body is used as is; the body falls through only past null or undefined |
| Announcements.CourseOf | functions/src/index.ts:42-44 | `db.collection("courses").doc(courseId).get()`: the course document when it exists |
| Announcements.CourseKey | functions/src/index.ts:39-49 | the course id, unless the course document exists and `code ?? courseCode` is a string whose trim is non-empty; then that trim |
| Announcements.CourseKeyIsTrimmed | functions/src/index.ts:39-49 | a key other than the course id is the trimmed `code`, or the trimmed `courseCode` when `code` is nullish; it is non-empty and is its own trim |
| Announcements.CodeShadowsCourseCode | functions/src/index.ts:45-46 | a present `code` that is not a string, or is only white space, leaves the key at the course id, even when `courseCode` is usable |
| Announcements.CourseCodeFallback | functions/src/index.ts:45-47 | with `code` nullish, a usable `courseCode` becomes the key, trimmed |
| Announcements.CodeUsed | functions/src/index.ts:45-47 | a `code` that is a string with a character other than white space becomes the key, trimmed, whatever `courseCode` holds |
| Announcements.NoCourseDocKeepsId | functions/src/index.ts:39-43 | without a course document the key is the course id |
| Announcements.ResolveCourseKey | functions/src/index.ts:39-49 | the reassigned `courseKey` is the course key: the course id, or a non-empty trimmed code |
| Announcements.Usable | functions/src/index.ts:73 | `typeof token === "string" && token.length > 0` |
| Announcements.DocTokens | functions/src/index.ts:71-74 | the usable `token` fields of one user's token documents, in document order |
| Announcements.AnnouncementTokens | functions/src/index.ts:62-75 | the collected tokens: for each enrolled user in query order, the usable `token` fields of its token documents, with no role check and no de-duplication |
| Announcements.DocTokensMember | functions/src/index.ts:71-74 | a token is kept exactly when it is a non-empty string in some document's `token` field |
| Announcements.DocTokensLength | functions/src/index.ts:71-74 | at most one token per token document (the exact count is `DocTokensCount`) |
| Announcements.DocTokensAppend | functions/src/index.ts:71-74 | collecting over two runs of token documents is the two collections one after the other: order kept, a repeated token kept twice |
| Announcements.DocTokensSingle | functions/src/index.ts:72-73 | one document contributes its `token` string exactly when it is a non-empty string, and nothing otherwise |
| Announcements.DocTokensCount | functions/src/index.ts:71-74 | exactly one token per document with a usable `token` field: nothing is dropped as a repeat |
| Announcements.AnnouncementTokensMember | functions/src/index.ts:64-75 | a token is collected exactly when it is non-empty and sits in a `token` field of an enrolled user; admin-like users are not skipped |
| Announcements.AnnouncementTokensBound | functions/src/index.ts:64-75 | the count never exceeds the enrolled users' token-document total |
| Announcements.AnnouncementTokensCount | functions/src/index.ts:64-75 | the number of collected tokens is exactly the number of usable token documents of the enrolled users: no de-duplication within or across users |
| Announcements.AnnouncementTokensAppend | functions/src/index.ts:64-75 | collection is in user-then-token order: over two lists of users it is the two collections, one after the other |
| Announcements.CollectAnnouncementTokens | functions/src/index.ts:62-75 | the nested `for` loops with `push` collect exactly these tokens |
| Announcements.PushTokenFields | functions/src/index.ts:71-74 | the inner loop appends one user's usable token fields, in order |
| Announcements.AnnouncementPayload | functions/src/index.ts:86-101 | the message of every slice: the title and body chains, and `data` with `kind: "announcement"`, the course key, the course id and the announcement id |
| Announcements.AnnouncementEffect | functions/src/index.ts:17-107 | the calls of the handler: none without a snapshot, enrolled users or tokens; otherwise the 500-slices of the tokens with the announcement, ending at the first call that throws |
| Announcements.EarlyReturnsChangeNothing | functions/src/index.ts:57-80 | the returns for no users and for no tokens make the same calls as going on would: none |
| Announcements.AnnouncementCalls | functions/src/index.ts:83-106 | the calls are the 500-token slices in order, each non-empty and carrying the announcement; all slices are sent exactly when no call throws, and then ceil(n / 500) calls cover every token once |
| Announcements.NoTokensNoCalls | functions/src/index.ts:77-80 | without a snapshot, or without a usable token of an enrolled user, nothing is sent |
| Announcements.NotifyCourseAnnouncement | functions/src/index.ts:17-107 | the handler makes exactly `AnnouncementEffect`'s calls and never changes the store: no token is pruned |
| Announcements.Announce | functions/src/index.ts:39-106 | with a snapshot, the key lookup, the query, the token loops and the send loop make exactly those calls |
| Announcements.SendSlices | functions/src/index.ts:83-106 | the `i += 500` loop makes the calls of sending the 500-slices in order, stopping at the first that throws, and leaves the store unchanged |
| Announcements.SliceStep | functions/src/index.ts:83-86 | one pass of the slice loop: a throwing call ends the effect with the calls so far; otherwise the loop goes on from `i + 500` |

## Left out

- `functions/lib/index.js` is the compiled output of `functions/src/index.ts`, with the same logic; it is modelled once, from the TypeScript source.
- Firebase initialisation and `setGlobalOptions` are SDK setup, with no behaviour to model.
- The welcome-email and password-reset handlers (functions/index.js:206-345) generate auth links and handle HTTP, CORS and mail templates. They are outside the fan-out.
- `sendTomorrowCalendarReminders`:
  - It computes tomorrow's window with `Date` and the Asia/Amman time zone, and queries a timestamp range. The model takes the resulting documents as the `due` parameter.
  - Its cron schedule is left out. The schedule says "every 1 minutes", although the comment above it says "daily".
  - The `snap.empty` return is left out. Over no documents the loop does nothing anyway.
- `Promise.allSettled` runs the deletions of a group concurrently. The model runs them one after another. Each may fail on its own, and none stops the others; the end state is the same.
- Console logging and the Android `priority: "high"` option are left out.
- Numbers in documents are integers only. Floating point, and its `toString()`, are left out.
- Query order is the store's `uids` order. Firestore's own ordering is not modelled.
- `chunk` is only modelled for a positive integer size. The source with size 0 never terminates, and the source only calls it with 500.
- The model takes the provider to answer a call that returns with one response per token (`Aligned`). Calls that throw are modelled.
- Transport errors of reads and writes are not modelled, apart from failed deletions. This covers a failed query, a failed role lookup and a failed course lookup.
- Document ids are modelled as strings. Their uniqueness within a sub-collection is not enforced.
- The handlers and their effects are stated for every store, including ones Firestore cannot hold: a `uids` list that repeats a user (whose registrations are then collected twice) or misses one (who then matches no query). `Store.WellFormed` names the stores Firestore can hold, and `Aggregation.WhereExactlyOnce` states that on them every matching user is returned exactly once.
- The calendar handlers' `data` key `type` is the field `kind` of `Dispatch.CalendarData`, and the item's `type` field is `Calendar.CalendarItem.kind`, because `type` is a Dafny keyword.
