# Smart Approval Chain Manager — a Dafny model of the approval core

This project models the server core of the Smart Approval Chain Manager:

- An employee files a purchase, expense or leave request.
- A team lead approves or rejects it.
- A manager then gives the final approval or rejection.
- Every decision appends an approval-log entry and notifies the people involved.

The model covers:

- the records and their enums (`Records`);
- the store the handlers read and write (`Db`, `Effects`);
- the notification service (`NotificationService`);
- the two decision handlers and the approval history (`ApprovalFlow`);
- request creation and the three read endpoints (`RequestFlow`);
- the role gate of every route (`Routes`).

It also covers the pure helpers that sit next to the core:

- the three day-count formulas (`Days`);
- the client's status colours, type icons and truncation, and the server's user projection (`Helpers`);
- the client's notification list and unread badge (`NotificationPanel`);
- the file-name and public-id logic of the storage service (`Storage`).

Everything is written as pure functions over immutable datatypes.

**Handlers and the store.** A handler takes:

- the store;
- the path id;
- the caller;
- the body fields;
- what the outside world answers: the upload, the `User.findOne` lookups, and whether the socket server is up;
- an `Env`, which carries the current time and an optional injected fault.

A handler returns the new store and the HTTP response. Each handler performs its writes in the source's order, as a list of writes applied one by one. `Env.failAt = Some(k)` makes the `k`-th write throw. All earlier writes then stay in the store and the response is a 500, which is what the controllers' `try`/`catch` does.

**Two behaviours of the code worth knowing:**

- **Notification failures fail the decision.** `createNotification` rethrows a failed insert (server/services/notificationService.js:22-25), and the controller's `catch` answers 500. By then the request is already saved and the log entry already written. `ApprovalFlow.NotificationFailureAfterSave` states exactly this.
- **Notification count.** A team-lead approval sends two notifications when a manager exists: one to the employee and one to the manager. Every other decision sends one.

**Strings.** A JavaScript string is a sequence of UTF-16 code units, and `length`, `substring` and a regular expression without the `u` flag count units. Dafny strings here are sequences of characters. Where the count matters (the upload file name and `truncateText`), the model works on the code units (`Text.Utf16`): an emoji is two units, sanitises to two `_`, and a cut may split it.

**Leave days.** The leave day count is `ceil((to - from) / 86400000) + 1`, computed exactly over integer milliseconds. Dates reversed by a day or more give zero or a negative count, as in the source, because there is no `abs` (`Days.LeaveDaysFacts`). Dates reversed by less than a day still give 1, because the ceiling of a negative fraction above -1 is zero.

## Model

| member | source | states |
|---|---|---|
| Records.ParseRequestType | server/models/Request.js:4-8 | a request type is accepted exactly when it is one of purchase, expense, leave, and the accepted value carries that name |
| Records.RequestTypeRoundTrip | server/models/Request.js:4-8 | every request type's name passes the enum check and reads back as the same type |
| Records.StatusNamesDistinct | server/models/Request.js:14-18 | the four status names are pairwise different |
| Records.StatusOf | server/controllers/approvalController.js:29-37 | which overall status each pair of stage sub-statuses stands for, both directions of each case |
| Records.TerminalHasNoEdge | server/controllers/approvalController.js:131-136 | no transition leaves approved or rejected, and none returns to pending |
| Db.Find | server/controllers/approvalController.js:13 | `findById` gives a stored request with that id, and nothing exactly when no stored request has it |
| Db.LookupRequest | server/controllers/approvalController.js:13-20 | an uncastable id is a cast error, an unknown id is missing, otherwise the stored request with that id |
| Db.FindAfterReplace | server/controllers/approvalController.js:39 | saving a document changes what is found under its id and nothing under any other id |
| Db.FindInPrefix | server/controllers/requestController.js:88 | inserting a request never changes what is found under an id already stored |
| Effects.Stamp | server/models/Request.js:87-91 | every save sets updatedAt to the current time and changes nothing else |
| Effects.Commit | server/controllers/approvalController.js:107-112 | the handler reports success exactly when no write of its plan throws; uploads are never touched |
| Effects.FailureKeepsPrefix | server/controllers/approvalController.js:107-112 | a write that throws leaves exactly the writes before it in the store, and the response is an error |
| Effects.CommitRequests | server/controllers/approvalController.js:39 | without a fault, the requests after a plan are those after its inserts and saves in order |
| Effects.CommitLogs | server/controllers/approvalController.js:42-48 | without a fault, the plan's log entries are appended in order, and nothing else is appended to the log |
| Effects.CommitNotifications | server/services/notificationService.js:5-21 | without a fault, one unread notification per send, in order, each with its draft's recipient, sender, request, type and message |
| Effects.CommitFreshIds | server/services/notificationService.js:7 | new notifications get ids from the fresh range |
| Effects.CommitPushes | server/services/notificationService.js:14-19 | each stored notification is pushed to its recipient's room when the socket server is up, and none is pushed otherwise |
| Effects.CommitAppendsOnly | server/services/notificationService.js:5-26 | whatever the fault, logs, notifications and pushes are only ever appended to |
| Effects.CommitGrowsRequests | server/controllers/requestController.js:88 | a plan without saves only appends requests, whatever the fault |
| Effects.CommitPreservesValid | server/models/Request.js:44-75 | writes of well-formed requests keep the store invariant: unique ids, status consistent with sub-statuses, rejection data exactly on rejected requests |
| NotificationService.ApprovalNeededDraft | server/services/notificationService.js:29-39 | the prompt goes to the given recipient, from the request's owner, with type approval_needed and the "needs your approval" text |
| NotificationService.ApprovalDraft | server/services/notificationService.js:42-52 | the approval goes to the owner, from the approver, with type request_approved and the "has been approved by" text |
| NotificationService.RejectionDraft | server/services/notificationService.js:55-65 | the rejection goes to the owner, from the rejecter, with type request_rejected and the rejection text |
| NotificationService.RejectionReasonSuffix | server/services/notificationService.js:56 | the rejection text ends in ": reason" exactly when the reason is truthy, and otherwise stops at the role |
| NotificationService.TemplatesDistinct | server/services/notificationService.js:30-56 | the three templates never produce the same text for a request type |
| NotificationService.CreateNotification | server/services/notificationService.js:5-26 | a failed insert is rethrown and changes nothing; otherwise one unread notification with a fresh id is stored, and pushed to the recipient's room if the socket server is up |
| NotificationService.EmitFailureSwallowed | server/services/notificationService.js:14-21 | a failed emit still resolves with the same stored notification; only the push is missing |
| ApprovalFlow.ParseAction | server/controllers/approvalController.js:29-67 | only the exact strings approve and reject decide anything |
| ApprovalFlow.Decide | server/controllers/approvalController.js:9-113 | an uncastable id gives 500, an unknown id 404, and a failed status guard 400 with its message, each leaving the store unchanged; a store change implies the guard passed |
| ApprovalFlow.TeamLeadDecision | server/controllers/approvalController.js:15-27 | an unknown id gives 404; a request not pending gives 400 "Request has already been processed"; any store change was made to a pending request |
| ApprovalFlow.ManagerDecision | server/controllers/approvalController.js:124-136 | an unknown id gives 404; a request not approved_by_teamlead gives 400 "Request must be approved by Team Lead first"; any store change was made to such a request |
| ApprovalFlow.DecisionPlanShape | server/controllers/approvalController.js:39-48 | a decision saves first, and exactly one log entry is written, with the stage's action and role |
| ApprovalFlow.DecisionEffects | server/controllers/approvalController.js:29-65 | without a fault: 200 with the saved request, only that request changes, and exactly one log entry is appended |
| ApprovalFlow.DecisionPlanDrafts | server/controllers/approvalController.js:50-65 | the notifications are the employee's and then, after a team-lead approval with a manager present, the manager's prompt |
| ApprovalFlow.DecisionNotifications | server/controllers/approvalController.js:50-65 | the stored notifications are exactly those drafts, in order |
| ApprovalFlow.TeamLeadApproveEffects | server/controllers/approvalController.js:29-65 | the team-lead record gets approver, time, approved and comment; status becomes approved_by_teamlead; one approved/teamlead log entry; the employee is told; the manager, if any, is asked |
| ApprovalFlow.TeamLeadRejectEffects | server/controllers/approvalController.js:67-97 | sub-status and status become rejected, with rejectedBy, reason and time; one rejected/teamlead log entry; only the employee is notified |
| ApprovalFlow.ManagerApproveEffects | server/controllers/approvalController.js:138-164 | status becomes approved; the manager record is filled in, the team-lead record is untouched; one log entry; one notification to the employee |
| ApprovalFlow.ManagerRejectEffects | server/controllers/approvalController.js:166-196 | status becomes rejected with rejection metadata; the team-lead record is untouched; one log entry; one notification to the employee |
| ApprovalFlow.DecisionFault | server/controllers/approvalController.js:107-112 | a throwing write gives 500 and keeps exactly the writes before it |
| ApprovalFlow.NotificationFailureAfterSave | server/controllers/approvalController.js:39-55 | if the employee's notification fails to persist, the answer is 500 although the request is saved and the log entry written |
| ApprovalFlow.DecisionRequests | server/controllers/approvalController.js:29-39 | after a decision the requests are unchanged, or only the addressed request is replaced by its decided form, and then the guard passed and the action was a verdict |
| ApprovalFlow.DecisionFollowsEdges | server/controllers/approvalController.js:22-37 | whatever the input or fault, a decision adds or removes no request, changes only the addressed one, and moves its status only along an edge |
| ApprovalFlow.DecisionPreservesValid | server/controllers/approvalController.js:29-97 | every decision keeps the store invariant |
| ApprovalFlow.TerminalIsFinal | server/controllers/approvalController.js:22-27 | an approved or rejected request is refused by both handlers with 400 and never changes |
| ApprovalFlow.OtherActionIsNoOp | server/controllers/approvalController.js:98-106 | an action other than approve or reject passes the guard, answers 200 with the unchanged request, and writes nothing |
| ApprovalFlow.TwoStageApproval | server/controllers/approvalController.js:138-164 | team-lead approval followed by manager approval ends approved with both stage records, two log entries in stage order, and two or three notifications |
| ApprovalFlow.History | server/controllers/approvalController.js:218-235 | history holds exactly that request's log entries, each as often as stored, newest first; an uncastable id gives 500 |
| RequestFlow.CreateRequest | server/controllers/requestController.js:9-111 | purchase and expense without a file answer 400 with their messages and change nothing; a rejected upload answers 500 with only the upload call recorded; an unknown type or an invalid leave date answers 500 with no change; only purchase and expense with a file upload |
| RequestFlow.CreateRequestFault | server/controllers/requestController.js:88-111 | a throwing `Request.create` answers 500 with nothing stored; a throwing team-lead notification answers 500 with the new request already stored and no notification; no log entry either way |
| RequestFlow.CreateRequestEffects | server/controllers/requestController.js:12-104 | a successful creation answers 201 with the new request: pending at both stages, owned by the caller, with a fresh id and its type's details; no log entry; one team-lead prompt from "employee" if a team lead exists, none otherwise |
| RequestFlow.CreateRequestPreservesValid | server/controllers/requestController.js:12-18 | creation keeps the store invariant, whatever the fault |
| RequestFlow.CreateKeepsExisting | server/controllers/requestController.js:88 | creation never alters a request already stored |
| RequestFlow.AllRequests | server/controllers/requestController.js:171-208 | a team lead sees exactly the pending requests awaiting a team lead, a manager exactly those awaiting a manager, anyone else everything; each listed request as often as it is stored; newest first |
| RequestFlow.MyRequests | server/controllers/requestController.js:117-136 | exactly the caller's requests, each as often as stored, newest first |
| RequestFlow.GetRequest | server/controllers/requestController.js:141-166 | an unknown id gives 404, an uncastable one 500, otherwise 200 with the request of that id, for any caller |
| Routes.Gate | server/routes/requestRoutes.js:16-20 | an unauthenticated caller is refused before any role check; a caller is forbidden exactly when the route names roles and theirs is not among them |
| Routes.GateTable | server/routes/approvalRoutes.js:12-14 | the decision endpoints admit only their stage's role; history and get-by-id admit any authenticated user; create and my-requests admit only employees; listing admits team leads and managers |
| Routes.Dispatch | server/routes/requestRoutes.js:16-20 | a call is handled exactly when its gate admits it; the read endpoints never change the store |
| Routes.DispatchPreservesValid | server/routes/approvalRoutes.js:12-14 | every handled call keeps the store invariant |
| Routes.OnlyTheStageRoleDecides | server/routes/approvalRoutes.js:12-13 | only a team lead moves a request out of pending, and only a manager out of approved_by_teamlead |
| Days.CeilDiv | server/utils/helpers.js:15 | `Math.ceil(a / b)` over integers: the least q with a <= b*q |
| Days.LeaveDays | server/controllers/requestController.js:77 | the leave count n is the one with (n - 2) days < to - from <= (n - 1) days, signed |
| Days.ClientDays | client/src/utils/helpers.js:43-49 | the client count n is at least 1 and the one with (n - 2) days < the distance <= (n - 1) days |
| Days.ServerDays | server/utils/helpers.js:11-17 | the server count n is non-negative and the one with (n - 1) days < the distance <= n days |
| Days.LeaveDaysFacts | server/controllers/requestController.js:72-85 | equal dates give 1; dates in order give the client's count; dates reversed by a day or more give at most 0 |
| Days.LeaveDaysExample | server/controllers/requestController.js:76 | 2024-01-01 to 2024-01-05 is 5 days |
| Days.ClientDaysFacts | client/src/utils/helpers.js:43-49 | the client count is symmetric, at least 1, and 1 for equal dates |
| Days.ServerDaysFacts | server/utils/helpers.js:11-17 | the server count is symmetric, never negative, 0 for equal dates, and exactly one less than the client count |
| Days.ServerDaysWholeDays | server/utils/helpers.js:14-16 | dates a whole number of days apart give that number of days |
| Helpers.GetStatusColor | client/src/utils/helpers.js:19-27 | the gray fallback is returned exactly for strings that are not a status name |
| Helpers.StatusColorsDistinct | client/src/utils/helpers.js:20-25 | each status has its own colour, none of them gray |
| Helpers.GetRequestTypeIcon | client/src/utils/helpers.js:29-36 | the page icon is returned exactly for strings that are not a request type |
| Helpers.TypeIconsDistinct | client/src/utils/helpers.js:30-34 | the three types have three different icons, none the fallback |
| Helpers.TruncateText | client/src/utils/helpers.js:38-41 | counted in UTF-16 code units: a text that fits comes back unchanged; otherwise a prefix of it of length n (0 for a negative n), then "...", n + 3 units long |
| Helpers.Truncate | client/src/utils/helpers.js:38 | with the default width, at most 53 code units, and unchanged up to 50 |
| Helpers.TruncateFacts | client/src/utils/helpers.js:40 | the visible part is exactly the first n code units, and truncating the result again changes nothing |
| Helpers.TruncateBmp | client/src/utils/helpers.js:38-41 | for text without characters outside the Basic Multilingual Plane the cut falls after the first n characters |
| Helpers.TruncateSplitsSurrogatePair | client/src/utils/helpers.js:39-40 | two emoji are four units, and a width of 1 keeps a lone high surrogate before the ellipsis |
| Helpers.SanitizeUser | server/utils/helpers.js:25-33 | the output carries the user's id, name, email, role and department |
| Helpers.SanitizeDropsPrivateFields | server/utils/helpers.js:25-33 | two users give the same output exactly when they agree on those five fields, so the password and any other field never show |
| NotificationPanel.Session | client/src/context/NotificationContext.jsx:16-26 | logging in on an unfetched panel loads what the fetches return; logging out of a fetched panel empties it; otherwise nothing changes |
| NotificationPanel.Receive | client/src/context/NotificationContext.jsx:30-32 | an incoming notification goes to the front and the badge rises by one |
| NotificationPanel.MarkAsRead | client/src/context/NotificationContext.jsx:67-79 | on success only entries with that id become read, all others stay, and the badge drops to max(0, count - 1); on a server error nothing changes |
| NotificationPanel.MarkAllAsRead | client/src/context/NotificationContext.jsx:81-91 | on success every entry is read and otherwise unchanged, and the badge is 0; on a server error nothing changes |
| NotificationPanel.ReceiveKeepsConsistent | client/src/context/NotificationContext.jsx:30-32 | an unread arrival keeps the badge equal to the number of unread entries |
| NotificationPanel.MarkUnreadKeepsConsistent | client/src/components/notifications/NotificationItem.jsx:8-11 | marking an unread entry, the only kind the item lets through, keeps the badge equal to the number of unread entries |
| NotificationPanel.MarkReadEntryDrifts | client/src/context/NotificationContext.jsx:75 | without that guard the badge drifts below the number of unread entries |
| NotificationPanel.MarkAllConsistent | client/src/context/NotificationContext.jsx:84-87 | after marking all, the badge agrees with the list whatever came before |
| NotificationPanel.MarkAllIdempotent | client/src/context/NotificationContext.jsx:84-87 | marking all twice is marking all once |
| NotificationPanel.LogoutResets | client/src/context/NotificationContext.jsx:21-25 | logging out leaves an empty list, a zero badge, and a panel to be fetched again |
| NotificationPanel.UnreadAfterMark | client/src/context/NotificationContext.jsx:70-74 | marking the one unread entry with an id lowers the number of unread entries by exactly one |
| NotificationPanel.MarkAsReadTwice | client/src/context/NotificationContext.jsx:70-74 | marking the same id a second time leaves the list as the first time left it |
| NotificationPanel.LoginConsistent | client/src/context/NotificationContext.jsx:16-20 | a login whose two fetches answer a list and its unread count gives a badge that agrees with the list |
| Storage.IsCloudinaryConfigured | server/services/cloudinaryService.js:11-16 | cloud storage is used exactly when all three credentials are set and none is its sample value |
| Storage.SampleCredentialsFallBack | server/services/cloudinaryService.js:11-16 | any missing credential or sample value selects local storage |
| Storage.SanitizeFileName | server/services/cloudinaryService.js:45 | one output character per UTF-16 code unit of the name; letters, digits and dots are kept, everything else becomes `_`; names of kept characters and `_` are unchanged |
| Storage.SanitizeMatchesRegex | server/services/cloudinaryService.js:45 | the sanitised name's code units are the name's code units with every unit outside `[a-zA-Z0-9.]` replaced by `_` |
| Storage.SanitizeEmoji | server/services/cloudinaryService.js:45 | an emoji becomes two underscores, as each half of its surrogate pair is matched |
| Storage.SanitizeFacts | server/services/cloudinaryService.js:45 | the result uses only `[a-zA-Z0-9._]`, sanitising twice is sanitising once, and a clean name is unchanged |
| Storage.CloudPublicId | server/services/cloudinaryService.js:24 | a public id is requested exactly for a truthy name, and is the part of the name before its first dot |
| Storage.CloudPublicIdOfDotted | server/services/cloudinaryService.js:24 | `base.ext` is stored under `base` |
| Storage.LocalFileName | server/services/cloudinaryService.js:42-49 | `{uuid}.pdf` without a name; with a name, the timestamp, `_` and one character per code unit of the name |
| Storage.LocalFileNameSplits | server/services/cloudinaryService.js:46 | the timestamp and the sanitised name read back from a local file name |
| Storage.LocalStored | server/services/cloudinaryService.js:64-68 | the public id is `local_` followed by the file name, and the url is the base, `/uploads/` and the file that id names |
| Storage.BaseUrl | server/services/cloudinaryService.js:64 | BASE_URL when set, otherwise localhost on PORT when set, otherwise on port 5000 |
| Storage.UploadPdf | server/services/cloudinaryService.js:8-73 | configured: the cloud's answer for the folder and the requested public id; otherwise success exactly when the local write succeeds, with the `local_` public id and the url `{base}/uploads/{fileName}` |
| Storage.DeleteFile | server/services/cloudinaryService.js:76-98 | an empty or absent id does nothing; a local id resolves ignored exactly when the file exists and unlinking it throws, ok otherwise, and unlinks the file after the prefix exactly when it exists and unlinking succeeds; a cloud id resolves with the cloud's answer or rethrows its error |
| Storage.LocalRoundTrip | server/services/cloudinaryService.js:67-85 | deleting a locally stored file removes exactly the file that was written, and a missing file still resolves ok |
| Storage.UploadThenDelete | server/services/cloudinaryService.js:59-85 | a local upload succeeds with the url under the base url, deleting its public id unlinks exactly that file, and with no BASE_URL or PORT the url is on localhost:5000 |
| Storage.DeleteErrorPolicy | server/services/cloudinaryService.js:82-97 | a failing unlink of an existing local file resolves ignored, a missing local file resolves ok, and errors on cloud ids are rethrown |
| Text.ReplacePrefixByEmpty | server/services/cloudinaryService.js:80 | replacing the leading `local_` by nothing leaves the rest of the id |
| Text.SplitAtFirst | server/services/cloudinaryService.js:24 | splitting at the first separator gives back the part before and the part after |
| Text.DecimalRoundTrip | server/services/cloudinaryService.js:46 | the decimal rendering of a timestamp reads back as the same number |
| Ordering.Query | server/controllers/requestController.js:191-195 | a find with a filter and `.sort('-createdAt')`: exactly the matching items, each as often as stored, newest first |

## Left out

- Mongoose `populate`, the query engine and document casting: the store is a list of records. Which path strings are castable ids is abstract (`PathId`).
- A `marketPrice` or `amount` that Mongoose cannot cast to a Number gives a 500 in the source. Money is an opaque string here.
- Date parsing: dates arrive as milliseconds, with an invalid date as absent. Date formatting (`formatDate`, `formatDateTime`) is display only.
- Floating point: day counts are exact integer ceilings. The source's double division agrees for realistic timestamps.
- All `Date.now()` calls in one handler share a single time value.
- `Math.random` (`generateId`) and `crypto.randomUUID` are left out; the uuid is a parameter.
- `User.findOne` for the team lead and the manager is an input. A failure of that lookup, which in the source also ends in a 500, is not modelled.
- Socket.io transport, JWT verification and the `protect`/`authorize` middleware bodies are not part of this model. Their outcomes are abstract denials, without status codes.
- Cloudinary and `fs` I/O: the upload is a function parameter, and the delete's file-system answers are booleans.
- The concurrent-approval race, where two decisions both read `pending`, is left out. Handlers run one at a time.
- Ties in `.sort('-createdAt')`: the model promises only the multiset and the descending order, not which of two equal timestamps comes first.
- Object-prototype keys such as `constructor` make the source's colour and icon table lookups return a function instead of the fallback. Inputs are compared as plain strings here.
- `server/utils/validators.js`, the notification routes and controller, the React pages and forms, and the client HTTP services are not part of this model.
- The Notification and User models are not part of this model. A stored notification is assumed to start unread and to be stamped with the time of its creation.
- A JavaScript string holding an unpaired surrogate has no counterpart among Dafny strings, so file names and texts are always well-formed UTF-16 here; `truncateText` can still produce one, and its result is a sequence of code units.
- NotificationPanel.Session: the two fetches are asynchronous in the source. The model applies both answers together in the same step that marks the panel fetched.
