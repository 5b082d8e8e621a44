# use-poll: a Dafny model of the poll application's logic

The poll application lets signed-in users create poll questions and gives
every visitor an anonymous voter identity kept in a cookie. Apart from the
web pages, its logic sits in three places. This project models each one and
proves properties about it:

- **The question-input schema** (`createQuestionValidator`). A poll submission
  is acceptable when its question text is 5 to 500 characters long, it has
  2 to 20 options, and each option's text is 1 to 200 characters long.
  `QuestionValidator.ValidQuestionInput` is the declarative reading: the
  conjunction of the three rules. `QuestionValidator.SafeParse` is the
  schema's evaluation. It collects each failed `.min`/`.max` bound as an
  issue, with its path (`question`, `options`, `options.i.option`), and
  accepts only when it finds no issue. The two are proved to agree. Every
  issue names a field that really breaks its rule, and every broken rule is
  reported. The shared length-bound check is in module `Zod`.
- **The voter-identity middleware** (`middleware`). It keeps the request's
  `voter-token` cookie if it has one and otherwise takes a fresh id. It then
  writes that value onto a pass-through response as the `voter-token`
  cookie. The response is a class with a cookie-map field, updated by
  `SetCookie`. The fresh id `self.crypto.randomUUID()` is a parameter.
- **The question router** (`get-all`, `get-by-id`, `create`). These run over
  an in-memory `QuestionStore` that stands in for the database table.
  `get-all` and `get-by-id` are functions of the store, so they cannot change
  it. `create` is a method that appends to the store's `records` sequence.
  The session token (the `next-auth.session-token` cookie) is an
  `Option<string>`. The id the database would generate for a new record is a
  parameter.

Two edge cases of the source that the model keeps as written:
- `voterIdCookie ?? id` (src/middleware.ts:14) falls back only when the
  cookie is absent, so an empty `voter-token` is kept
  (`VoterIdentity.EmptyTokenKept`).
- `question?.ownerToken === sessionToken` (src/server/router/questions.ts:20)
  is true for a missing question when the call has no session token, because
  `undefined === undefined` (`QuestionRouter.QuestionStore.GetById`).

## Model

| member | source | states |
|---|---|---|
| Zod.LengthIssues | src/shared/create-question-validator.ts:4-8 | a `.min(min).max(max)` length check reports no issue exactly when min <= length <= max; every issue it reports is at the checked path and names the bound that was broken |
| QuestionValidator.ValidQuestionInput | src/shared/create-question-validator.ts:3-9 | the schema read as the conjunction of its three rules; `SafeParse` and `IssuesSound` prove that acceptance is exactly this conjunction, and `AcceptedMeetsBounds` and `BoundsAccepted` give its two directions in literal bounds |
| QuestionValidator.Issues | src/shared/create-question-validator.ts:3-9 | all issues of the schema, field by field; `IssuesSound` proves there are none exactly when `ValidQuestionInput` holds and that each names a broken field, `IssuesComplete` that every broken rule is reported |
| QuestionValidator.QuestionIssues | src/shared/create-question-validator.ts:4 | the question text gives no issue exactly when its length is in [5, 500]; every issue it gives has path `question` |
| QuestionValidator.ElementIssues | src/shared/create-question-validator.ts:6 | the option elements from position i onward give no issue exactly when every one has text length in [1, 200]; each issue is at `options.j.option` for a j whose option breaks that rule |
| QuestionValidator.IssuesSound | src/shared/create-question-validator.ts:3-9 | the schema reports no issue exactly when all three rules hold; each reported issue names a field that breaks its rule |
| QuestionValidator.SafeParse | src/shared/create-question-validator.ts:3-9 | parsing succeeds exactly when the input meets all three rules, and then returns the input unchanged; a failure carries at least one issue, and each of its issues names a field that breaks its rule |
| QuestionValidator.ElementIssueReported | src/shared/create-question-validator.ts:6 | an option whose text length is outside [1, 200] gets an issue at its own path `options.j.option` |
| QuestionValidator.IssuesComplete | src/shared/create-question-validator.ts:3-9 | every broken rule is reported: a bad question text at `question`, a bad option count at `options`, and each bad option at `options.i.option` |
| QuestionValidator.AcceptedMeetsBounds | src/shared/create-question-validator.ts:3-9 | an accepted input has question length in [5, 500], an option count in [2, 20] and every option length in [1, 200] |
| QuestionValidator.BoundsAccepted | src/shared/create-question-validator.ts:3-9 | any input meeting the three bounds is accepted, and parsing returns it unchanged |
| QuestionValidator.OneBadOptionRejects | src/shared/create-question-validator.ts:6 | one empty or over-long option rejects the whole input, with an issue at that option's path |
| QuestionValidator.DefaultOptionsAccepted | src/pages/index.tsx:28-30 | the form's default options `Yes` and `No` meet the option-count and option-length rules, so the form with its defaults is accepted exactly when its question text is |
| QuestionValidator.AppendBeyondMaximum | src/shared/create-question-validator.ts:8 | adding an option to a list of 20 makes the input invalid |
| QuestionValidator.RemoveBelowMinimum | src/shared/create-question-validator.ts:7 | removing any option from a list of 2 makes the input invalid |
| VoterIdentity.CookieGet | src/middleware.ts:11 | reading a request cookie gives its value when the cookie is present and `undefined` exactly when it is absent |
| VoterIdentity.ChooseToken | src/middleware.ts:14 | `voterIdCookie ?? id`: keeps a present cookie (even an empty one) and takes the fresh id only when the cookie is absent; stated by `KeepsIncomingToken`, `FreshIdWhenAbsent`, `EmptyTokenKept` and `TokenIdempotent` |
| VoterIdentity.ResponseToken | src/middleware.ts:11-14 | the token chosen for a request; `KeepsIncomingToken`, `FreshIdWhenAbsent`, `EmptyTokenKept`, `TokenIdempotent` and `TokenStable` state its properties, and `Middleware`'s contract writes it as the response's `voter-token` |
| VoterIdentity.Response.Next | src/middleware.ts:6 | `NextResponse.next()` builds a response that passes the request on and has no cookies set yet |
| VoterIdentity.Response.SetCookie | src/middleware.ts:16 | the new cookie jar is the old one with this name set to the new value: every other cookie is kept |
| VoterIdentity.Middleware | src/middleware.ts:5-19 | the middleware returns a new pass-through response whose only cookie is `voter-token`; it holds the request's own `voter-token` when there is one, and the fresh id otherwise |
| VoterIdentity.KeepsIncomingToken | src/middleware.ts:11-16 | a request carrying a `voter-token` gets exactly that value back |
| VoterIdentity.FreshIdWhenAbsent | src/middleware.ts:8-16 | a request without a `voter-token` gets the freshly generated id |
| VoterIdentity.EmptyTokenKept | src/middleware.ts:14 | an empty `voter-token` is kept, whatever the fresh id; the fallback is nullish only |
| VoterIdentity.TokenIdempotent | src/middleware.ts:14-16 | sending the returned token back as the request cookie yields the same token, whatever fresh id the second request generates |
| VoterIdentity.TokenStable | src/middleware.ts:11-16 | two requests that carry the same `voter-token` get the same token, whatever their fresh ids |
| QuestionRouter.ParseCreateInput | src/server/router/questions.ts:24-26 | `create`'s input is accepted exactly when the question length is in [5, 500]; the parsed input keeps only the question text (the client's options are dropped); a failure reports issues at `question` |
| QuestionRouter.Truthy | src/server/router/questions.ts:30 | `!sessionToken` is false exactly for a present, non-empty token; `QuestionStore.Create` refuses with "Not authorized" exactly when this does not hold (for valid input) |
| QuestionRouter.OwnerTokenOf | src/server/router/questions.ts:20 | `question?.ownerToken`: the owner token of a found question, `undefined` otherwise; `QuestionStore.GetById`'s contract states the resulting `isOwner` in both cases |
| QuestionRouter.FirstIndex | src/server/router/questions.ts:15-19 | the position found is that of a record with the id, or the end of the store, and no earlier record has the id |
| QuestionRouter.FindFirst | src/server/router/questions.ts:15-19 | `findFirst` finds nothing exactly when no record has the id; otherwise it returns a stored record with that id, and no earlier record has the id |
| QuestionRouter.FirstIndexAppend | src/server/router/questions.ts:15-19 | appending a record leaves an existing first match where it was; an id without a match matches the appended record if that record has the id, and otherwise still matches nothing |
| QuestionRouter.FindFirstAppend | src/server/router/questions.ts:32-38 | after a record is appended, every id that already had a match finds the same record; an id without one finds the new record exactly when that record has the id |
| QuestionRouter.QuestionStore.GetAll | src/server/router/questions.ts:5-9 | `get-all` returns every stored record, in store order, and nothing else |
| QuestionRouter.QuestionStore.GetById | src/server/router/questions.ts:10-22 | `get-by-id` returns the first record with the id, or none exactly when no record has it; `isOwner` holds for a found record exactly when the session token equals its `ownerToken`, and for a missing one exactly when there is no session token |
| QuestionRouter.QuestionStore.Create | src/server/router/questions.ts:23-40 | a question text outside [5, 500] is rejected with its issues and a falsy session token gets "Not authorized"; in both cases the store is unchanged. Otherwise exactly one record is appended with the given id, the question text, empty options and the session token as owner. Existing lookups are unchanged, the new record is found by its id when the id was fresh, and then `isOwner` holds for the creator's session token and for no other; and the "empty options" and "non-empty owner" invariants of the store are kept |

## Left out

- Zod's type checks (`invalid_type` issues for a missing field or a non-string) are not modelled: inputs are typed records. Zod's exact issue messages and the `inclusive`/`exact` flags are not modelled either.
- String lengths are sequence lengths of Dafny characters. JavaScript counts UTF-16 code units, so text outside the Basic Multilingual Plane counts differently.
- `self.crypto.randomUUID()` is a parameter of `VoterIdentity.Middleware`. Nothing is claimed about its uniqueness or randomness.
- The `console.log` calls and the unused `nanoid` import have no effect on results and are not modelled.
- Cookie attributes set by `response.cookies.set` (path, expiry) are not modelled. The response is reduced to its pass-through flag and its cookie jar.
- The database behind `prisma` is a sequence of records. The database does not model `async`/`await`, connection failures, or a missing `prisma` client, where `prisma?.` would give `undefined`. Ids it generates are a parameter of `Create`. Columns not written in the cited lines (such as a creation timestamp) are not modelled.
- QuestionRouter.QuestionStore.Create: accepts any id, including one already stored, which the database would never generate; with such an id the new record is appended but `get-by-id` keeps returning the older record. The lookup clauses of its contract therefore assume a fresh id.
- The session token is a parameter. Reading it from `ctx.req?.cookies` and next-auth's own cookie handling are not modelled; a missing request and a missing cookie are both `None`.
- tRPC's router composition and superjson transformer (src/server/router/index.ts) are framework wiring and are not modelled. The `BadRequest` outcome stands for the error tRPC raises when input parsing fails.
- The React pages and layout (src/pages/index.tsx, src/pages/question/[id].tsx, src/components/Layout.tsx) are user interface. Only the form's default options are used, in `QuestionValidator.DefaultOptionsAccepted`.
- Vote casting, tallying and question deletion do not appear in the modelled files and are not modelled.
