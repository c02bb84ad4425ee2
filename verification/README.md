# Clinic reminders and route guard — a Dafny model

This project models the two decision rules of a clinic-management dashboard
(clients, appointments, settings) whose scheduled job sends WhatsApp
appointment reminders through the Z-API gateway:

* **The reminder pass** (`GET /api/send-reminders`). It fetches the
  appointments whose `reminder_sent` flag is false. It walks them in order
  and skips an appointment when:
  * the client has no phone;
  * the clinic has no settings row;
  * the current hour is not the clinic's `send_hour`;
  * or a Z-API credential is empty.

  Otherwise it renders the reminder text and makes one gateway call. It sets
  `reminder_sent` only when the response status is ok and its body parses as
  JSON. A failed fetch answers `{error: true}`; every other path answers
  `{success: true}`.
* **The route guard** (the Next.js `middleware`). A request with no session
  whose path starts with `/dashboard`, `/appointments`, `/clients` or
  `/settings` is redirected to `/login`. Every other request passes through.
  This describes the `middleware` function itself. Which requests reach it is
  decided by the framework's route matcher, which is not modelled.

The text is rendered by three successive `String.prototype.replace` calls with
string patterns. This is modelled exactly:
* only the first occurrence is replaced;
* each step works on the previous step's output, so a client name containing
  `{{data}}` is itself rewritten by the date step;
* the replacement string is subject to the `$$`, `$&`, `` $` `` and `$'`
  substitution patterns, so a client name `$&` leaves `{{nome}}` in the message.

Modules:
* `Wrappers` (`wrappers.dfy`): `Option`, for nullable columns.
* `Strings` (`strings.dfy`): `startsWith`, `indexOf` and `replace`.
* `Template` (`template.dfy`): the default template and `Render`.
* `Reminders` (`reminders.dfy`): the data model, the skip cascade `Decide`, the
  loop `Fold`, its specification `Attempts` / `FlaggedIds`, the whole pass
  `Dispatch`, and `Run`, which is the pass against the `appointments` table.
* `Middleware` (`middleware.dfy`): the protected prefixes and `Handle`.

The database, the gateway and the clock are inputs, bundled in `Reminders.Env`:
* the current hour, as a `nat`;
* the clinic-id → `clinic_settings` map;
* two opaque functions giving an appointment's pt-BR date and time;
* a per-appointment gateway outcome: `Replied(ok, bodyParses)` or `Threw`.

## Model

| member | source | states |
|---|---|---|
| `Strings.FindFrom` | app/api/send-reminders/route.ts:88-91 | the index found is an occurrence with none before it from the start point; `None` means no occurrence at all |
| `Strings.IndexOf` | app/api/send-reminders/route.ts:88-91 | `indexOf` finds nothing exactly when the pattern occurs nowhere; otherwise it finds the first occurrence |
| `Strings.Expand` | app/api/send-reminders/route.ts:89-91 | a replacement with no `$` is inserted verbatim |
| `Strings.ReplaceFirst` | app/api/send-reminders/route.ts:88-91 | a string in which the pattern does not occur is returned unchanged |
| `Strings.ReplaceFirstOccurrence` | app/api/send-reminders/route.ts:88-91 | replace rewrites exactly the first occurrence and keeps the text before and after it |
| `Strings.ReplacePastPrefix` | app/api/send-reminders/route.ts:88-91 | a prefix without the pattern's first character is passed over and left intact |
| `Template.ChooseTemplate` | app/api/send-reminders/route.ts:83-85 | a null or empty stored template gives the default; any other is used as stored; the result is never empty |
| `Template.RenderNoPlaceholders` | app/api/send-reminders/route.ts:88-91 | a template with none of the three placeholders is sent unchanged |
| `Template.RenderInOrder` | app/api/send-reminders/route.ts:88-91 | a template `a {{nome}} b {{data}} c {{hora}} d` with plain values renders to `a name b date c time d` |
| `Template.DefaultTemplateRender` | app/api/send-reminders/route.ts:83-91 | the default template renders to "Olá <name>, seu atendimento está agendado para <date> às <time>." |
| `Template.RenderExample` | app/api/send-reminders/route.ts:88-91 | the Ana / 05/03/2025 / 14:30 example renders with no placeholder left |
| `Template.NameRewrittenByDateStep` | app/api/send-reminders/route.ts:88-91 | a name reading `{{data}}` is replaced by the date, and the template's own `{{data}}` survives |
| `Template.DollarAmpersandName` | app/api/send-reminders/route.ts:89 | a name reading `$&` reproduces the matched `{{nome}}` instead of being inserted literally |
| `Reminders.ResolveClient` | app/api/send-reminders/route.ts:36-38 | an array join yields its first element (none if empty), an object yields itself, null yields none |
| `Reminders.MissingNameRendersEmpty` | app/api/send-reminders/route.ts:88-89 | a client with no name is rendered with `""` in the name's place |
| `Reminders.Decide` | app/api/send-reminders/route.ts:36-109 | skip reasons in the source's order (no phone, no settings, wrong hour, missing credential); an attempt exactly when none applies, with the client's phone, the clinic's credentials, the rendered message and that appointment's gateway outcome |
| `Reminders.Attempts` | app/api/send-reminders/route.ts:35-109 | a pass makes at most one call per appointment; every appointment ready to send gets its call in the list; the list has one call per appointment exactly when all are ready to send |
| `Reminders.FoldMeetsSpec` | app/api/send-reminders/route.ts:35-128 | the sequential loop appends exactly the specified sends, in order, and flags exactly the specified ids |
| `Reminders.Dispatch` | app/api/send-reminders/route.ts:25-130 | fetch error: `{error}`, no sends; null or empty list: `{success}`, no sends; otherwise `{success}`, at most one send per appointment, and an id is flagged iff some appointment with it was ready to send and its call returned ok with a parsed body |
| `Reminders.AttemptsAppend` | app/api/send-reminders/route.ts:35-128 | the sends of a pass over two lists are the sends over each, concatenated |
| `Reminders.AttemptsComeFromReadyAppointments` | app/api/send-reminders/route.ts:104-107 | every send goes to the phone of an appointment that was ready to send, with that appointment's rendered message |
| `Reminders.OffHourPassIsSilent` | app/api/send-reminders/route.ts:55-60 | when no clinic's send hour is the current hour, nothing is sent and nothing is flagged |
| `Reminders.GatewayIsolation` | app/api/send-reminders/route.ts:95-127 | changing the gateway's outcome for one appointment changes no send and no other appointment's flag |
| `Reminders.PartialFailure` | app/api/send-reminders/route.ts:95-127 | with A refused or failed and B confirmed, both are attempted and only B is flagged |
| `Reminders.SingleReadyAppointment` | app/api/send-reminders/route.ts:55-119 | one ready appointment whose call is confirmed: exactly one send, to its phone, and it is flagged |
| `Reminders.UnconfirmedNotFlagged` | app/api/send-reminders/route.ts:95-127 | a ready appointment whose call answers not ok, whose ok body fails to parse, or whose `fetch` throws is still called but not flagged |
| `Reminders.Pending` | app/api/send-reminders/route.ts:15-23 | the rows fetched are exactly the table's rows whose `reminder_sent` is false, each as often as it occurs in the table, and no others |
| `Reminders.MarkSent` | app/api/send-reminders/route.ts:116-119 | a row's `reminder_sent` is true afterwards iff it was true before or its id was updated; no other column of any row changes; the row count is unchanged |
| `Reminders.Run` | app/api/send-reminders/route.ts:15-130 | the pass keeps the row count, and a row changes only when its id was flagged and its update landed |
| `Reminders.RunOnlySetsFlags` | app/api/send-reminders/route.ts:116-119 | the pass adds and removes no rows, and changes a row only by setting a false `reminder_sent` to true |
| `Reminders.RunChangeIsConfirmed` | app/api/send-reminders/route.ts:115-119 | a changed row implies the fetch succeeded and a pending appointment with that id was ready to send and confirmed by the gateway |
| `Reminders.RunSendsAtMostOncePerRow` | app/api/send-reminders/route.ts:15-109 | a pass makes no more calls than there are pending rows, and no more than the table has rows |
| `Reminders.RunKeepsSentFlags` | app/api/send-reminders/route.ts:116-119 | no flag goes from true to false |
| `Reminders.RunFetchFailure` | app/api/send-reminders/route.ts:25-28 | a failed fetch answers `{error}`, sends nothing and leaves the table as it was |
| `Reminders.FlaggedNotPendingAfter` | app/api/send-reminders/route.ts:116-119 | an appointment flagged by a pass whose update landed is not pending afterwards, so the next pass does not message it again |
| `Reminders.FailedUpdateStaysPending` | app/api/send-reminders/route.ts:116-119 | a pending row whose update did not land stays pending, even after a confirmed send, so the next pass messages it again |
| `Middleware.StartsWithAny` | app/middleware.ts:35-37 | `some(startsWith)` holds iff the path starts with one of the listed routes |
| `Middleware.ProtectedIff` | app/middleware.ts:28-37 | a path is protected iff it starts with `/dashboard`, `/appointments`, `/clients` or `/settings` |
| `Middleware.Handle` | app/middleware.ts:39-43 | a redirect, always to `/login`, exactly when there is no session and the path starts with one of the four prefixes |
| `Middleware.SessionPassesThrough` | app/middleware.ts:39-43 | with a session every request passes through |
| `Middleware.UnprotectedPassesThrough` | app/middleware.ts:35-43 | a path under none of the prefixes passes through, session or not |
| `Middleware.LoginPassesThrough` | app/middleware.ts:28-41 | `/login` itself is never redirected |
| `Middleware.ProtectedMonotone` | app/middleware.ts:35-37 | appending any suffix to a protected path keeps it protected |
| `Middleware.NoSegmentBoundary` | app/middleware.ts:35-41 | `/dashboardfoo` is protected and, without a session, redirected |

## Left out

- The database client, its credentials and the queries as I/O. The `reminder_sent = false` query is the input `Fetch`, or `Pending` over a table. The per-appointment `clinic_settings` lookup is a map; a `maybeSingle` that finds no row, several rows, or fails all read as "no settings".
- Why a flag update fails. The source awaits the update and discards its `error`. The model takes the outcome as an input of `Run` (`landed`). A failed update after a confirmed send leaves the appointment pending, and the next pass sends the reminder again.
- The clock and the locale. `getHours()` is the input `currentHour`. The pt-BR `toLocaleDateString` / `toLocaleTimeString` are opaque input functions of `appointment_date`. Which timezone the hour is read in is not modelled.
- A gateway call that never settles. The source awaits `fetch` with no timeout. The model assumes each call settles, by answering or by throwing. A stalled call that holds up later appointments is not modelled. Neither is an invocation that the platform ends mid-loop, leaving only some appointments processed and never answering `{success: true}`.
- The Z-API HTTP call. It is a per-appointment outcome oracle. A send records the URL parts (instance id, token), the client-token header, and the JSON body (phone, message). The status code beyond ok / not ok is not modelled.
- Logging (`console.log` / `console.error`).
- Overlapping invocations of the pass, which can double-send. That is concurrency, outside a sequential model.
- The HTTP status of the answer. On a failed fetch the source answers `{error: true}` through `Response.json`, whose default status is 200, and the body carries no detail of the error. The model keeps only the body.
- The auth session lookup and the cookie plumbing of the middleware. Whether a session exists is a boolean input.
- The redirect target. The source builds an absolute URL from the request URL; the model keeps only the path `/login`.
- The middleware `config.matcher`. It is framework routing configuration. The model describes the `middleware` function for any path given to it. The matcher only routes `/dashboard/...`, `/appointments/...`, `/clients/...` and `/settings/...` paths to the function, so a request for `/dashboardfoo` never reaches it. The missing segment boundary (`NoSegmentBoundary`) is therefore a property of the function, not of the deployed guard.
- All React pages and components. They are UI bound directly to remote CRUD.
