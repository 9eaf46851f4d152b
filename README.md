# GaleriumAuth API: a verified model of its request rules

GaleriumAuth API is an Express backend. It registers and authenticates users,
lists gallery assets, and sells subscriptions through the Mercado Pago payment
gateway (checkout preferences and PIX instant payments). Most of `src/server.js`
is glue around the database, the password hasher, the token signer and the
gateway SDK. This project models the rules that sit among those calls, in Dafny:

- `RateLimit`: the fixed-window per-address rate limiter (`rateLimitMiddleware`).
  It is a class `RateLimiter` whose table field is updated in place by `Admit`.
  `Admit` is specified by the pure transition `Step`. Lemmas prove the
  three transitions, the count bound, the frame, and the overall promise that
  at most `RATE_LIMIT_MAX` (100) requests per address are admitted within one
  15-minute window, whatever requests from other addresses arrive between them.
- `Auth`: extracting the bearer token from the `Authorization` header, and the
  outcome of `authenticateToken` (401, 403, 401 or continue).
- `Registration`: the register handler. A pure `Validate` holds the checks that
  need no store access. `UserStore.Register` then rejects a taken email or adds
  exactly one non-administrator user to a store keyed by email.
- `Plans`: the two plan catalogs (`monthly`, `annual`, `premium`, with prices
  in centavos). This module also models the guard as the code writes it (see Findings).
- `Payments`: the create-preference and create-PIX handlers up to the gateway
  call, and the external reference `userId_type_ts` / `userId_type_pix_ts`
  with its parser. The round trip is proved: the webhook recovers `(userId, type)`.
- `Subscriptions`: the webhook. Only an approved payment changes the
  subscription table. It then upserts exactly one active subscription for the
  user, with a 365-day period for `annual` and 30 days otherwise. A replayed
  delivery at the same instant changes nothing more. `SubscriptionStore.HandleWebhook`
  is the in-place version.
- `Assets`: the pagination arithmetic `offset = (page-1)*limit` and
  `pages = ceil(total/limit)`. Lemmas prove that reading pages 1..pages returns
  every matching row once, in order.
- `Text`: JavaScript's `split` and `join` with one separator character, and
  decimal rendering, as the handlers use them. `Wrappers`: `Option`.

The clock (`Date.now()`) is a parameter `now`. External collaborators are
parameters too: the password hasher `hash`, the token check `verify`, the
identifier the database gives a new user, and the gateway's answer for a
payment (`fetched`).

The webhook answers 500 when anything in it throws (src/server.js:461-463).
The gateway retries a notification that gets a non-2xx answer. The model
keeps the 500 (`Failed`).

## Model

| member | source | states |
|---|---|---|
| `Text.Split` | src/server.js:429 | `split` always yields at least one piece, and no piece contains the separator |
| `Text.JoinSplit` | src/server.js:389-390 | joining the pieces of a split with the same separator gives back the original string |
| `Text.Decimal` | src/server.js:343 | the rendered timestamp is a non-empty string of decimal digits, so it never contains `_` |
| `RateLimit.Step` | src/server.js:63-89 | one request keeps every count within 1..100, leaves other addresses' entries untouched, adds only the requester's address (in production), and leaves the table unchanged when it refuses |
| `RateLimit.StepOutsideProduction` | src/server.js:64-66 | outside production every request is admitted and the table is not touched |
| `RateLimit.StepStartsWindow` | src/server.js:71-79 | an unknown address, or one whose window ended (`now > resetTime`), is admitted with entry `{count: 1, resetTime: now + 15 min}`, whatever the old count |
| `RateLimit.StepInsideWindow` | src/server.js:81-88 | inside the window a request is refused (429) iff the count is at least 100; a refusal changes nothing; an admission adds exactly 1 and keeps the window end |
| `RateLimit.WindowBound` | src/server.js:76-88 | while an address's window has not ended, at most 100 - count more of its requests are admitted, however other addresses' requests interleave |
| `RateLimit.FreshWindowBound` | src/server.js:71-88 | an address that starts a window, being unknown or having its previous window ended, gets at most 100 requests admitted up to that window's end |
| `RateLimit.RateLimiter.constructor` | src/server.js:59 | the limiter starts with an empty table |
| `RateLimit.RateLimiter.Admit` | src/server.js:63-89 | the in-place update gives exactly the table and answer of `Step`, and keeps the count bound |
| `Auth.BearerToken` | src/server.js:95-96 | a token, when found, is the non-empty second space-separated piece of a present header, and holds no space |
| `Auth.BearerRoundTrip` | src/server.js:95-96 | `<scheme> <token>`, optionally followed by more space-separated text, yields exactly `<token>` |
| `Auth.NoSpaceNoToken` | src/server.js:95-100 | a missing header, or one with no space (no second piece), yields no token |
| `Auth.Authenticate` | src/server.js:94-116 | the request goes on iff a token is present, verifies, and names an existing user; 403 iff the token does not verify; 401 when there is no token or the user is gone |
| `Registration.Validate` | src/server.js:180-188 | missing email, password or name comes first; then a password shorter than 6; otherwise valid. It never reports a taken email, since it does not touch the store |
| `Registration.UserStore.Register` | src/server.js:178-207 | invalid input, or an email already registered, is rejected and leaves the store unchanged; otherwise exactly one user is added under its email, with `isAdmin = false` and the hashed password |
| `Registration.RegisterTwice` | src/server.js:190-194 | registering the same email twice adds one user, not two |
| `Plans.Key` | src/server.js:319-323 | plan keys are non-empty and contain no `_` |
| `Plans.ParsePlan` | src/server.js:325-328 | a `type` is a plan iff it is `monthly`, `annual` or `premium`, and the plan found has that key |
| `Plans.ParseKey` | src/server.js:319-328 | each plan is found again under its own key |
| `Plans.CatalogsAgree` | src/server.js:372-381 | the PIX catalog charges the same non-zero price as the preference catalog for every plan |
| `Plans.GuardAdmitsNonPlan` | src/server.js:325-327 | as written, the `!plan` guard lets `type = "constructor"` through although it is no plan |
| `Payments.ParseReference` | src/server.js:429 | the recovered user id and plan type contain no `_`; there is no result iff the reference has no `_` |
| `Payments.ReferenceRoundTrip` | src/server.js:429 | for a user id without `_` and a catalog plan, both the preference reference (line 343) and the PIX reference (line 396) parse back to exactly `(userId, type)` |
| `Payments.ReferenceWithUnderscoreId` | src/server.js:429 | the round trip needs the no-`_` condition: user id `a_b` is read back as user `a`, plan `b` |
| `Payments.CreatePreference` | src/server.js:307-345 | unconfigured gateway gives 500 first; an unknown `type` gives 400 with no gateway call, and 400 arises only then; a request is forwarded iff configured, a plan and a user exist; it carries the catalog price and the reference `userId_type_now` |
| `Payments.CreatePix` | src/server.js:360-397 | same checks in the same order, 400 exactly for an unknown `type`; a forwarded charge carries the PIX catalog price (non-zero) and the reference `userId_type_pix_now` |
| `Payments.ForwardedReferenceParses` | src/server.js:343-429 | the reference either handler forwards is parsed by the webhook back to the requesting user and the requested plan |
| `Payments.PayerNameSplit` | src/server.js:389-390 | a name without a space is all first name, with last name `User`; otherwise first name, one space and the rest give back the name |
| `Payments.ConstructorReachesGateway` | src/server.js:325-347 | with `type = "constructor"` the code as written reaches the gateway call, while the corrected handlers answer 400 |
| `Subscriptions.PlanPeriod` | src/server.js:438 | the period lasts 365 days (31 536 000 000 ms) for `annual` and 30 days (2 592 000 000 ms) for `monthly` and `premium` |
| `Subscriptions.Upsert` | src/server.js:431-453 | the user's subscription becomes active, filed under and naming that user, with plan id `planType`, plan name `Plano <planType>`, the payment id, the amount, start `now` and the plan's period length; other users' subscriptions are unchanged; one-per-user is kept; `cancelAtPeriodEnd` is kept on update and false on create |
| `Subscriptions.UpsertLeavesOne` | src/server.js:431-453 | after the upsert exactly one subscription belongs to the user; the table grows by one only when the user had none (a second payment replaces, never duplicates) |
| `Subscriptions.Webhook` | src/server.js:415-465 | only an approved payment notification changes the table; any failure (500) leaves it unchanged; non-payment notifications, or an unconfigured gateway, are acknowledged untouched; a missing payment id or failed gateway lookup gives 500; a payment not approved is acknowledged untouched; an approved payment is acknowledged iff its reference is present and has a second `_` piece, and then the table is the upsert for the user and plan read from the reference |
| `Subscriptions.ApprovedPaymentSubscribes` | src/server.js:427-453 | an approved payment whose reference was built by either payment handler (user id without `_`) is acknowledged and leaves exactly one active subscription for that user, on that plan, starting now and lasting 365 days for `annual`, 30 otherwise |
| `Subscriptions.WebhookReplay` | src/server.js:427-453 | a delivery repeated at the same instant leaves the same table and answer as a single one |
| `Subscriptions.ExampleReferenceParses` | src/server.js:429 | the reference `U_monthly_123` names user `U` and plan `monthly` |
| `Subscriptions.MonthlyExample` | src/server.js:427-453 | an approved payment with reference `U_monthly_123` leaves exactly one active `monthly` subscription for `U`, ending 30 days after `now` |
| `Subscriptions.SubscriptionStore.HandleWebhook` | src/server.js:415-465 | the in-place handler gives exactly the answer and table of `Webhook`, and keeps one subscription per user |
| `Assets.PageCount` | src/server.js:513 | `pages = ceil(total/limit)`: the fewest pages of `limit` rows that hold all rows; zero exactly when there are no rows |
| `Assets.PageOf` | src/server.js:472-490 | page `p` holds at most `limit` rows, which are the rows starting at offset `(p-1)*limit`, in order; it is empty past the end |
| `Assets.PageInRange` | src/server.js:472-513 | a page has rows iff its number is at most the reported page count |
| `Assets.FirstPagesArePrefix` | src/server.js:487-491 | pages 1..k laid end to end are the first `k*limit` rows |
| `Assets.PagesCoverRows` | src/server.js:487-513 | reading every reported page returns every matching row exactly once, in order |
| `Assets.ListAssets` | src/server.js:469-515 | with page and limit defaulting to 1 and 20, the rows returned are exactly `PageOf` that page, and the metadata is the page, the limit, the total and `PageCount(total, limit)`; at most `limit` rows, non-empty iff the page is within the page count |

## Findings

| source | as written | input that shows it | evidently intended | confidence | as-written member | corrected member |
|---|---|---|---|---|---|---|
| src/server.js:325-327 and 378-380 | `plans[type]` and `prices[type]` look the key up on a plain object, and the `!plan` / `!amount` guard only rejects a falsy result. Inherited `Object.prototype` members are truthy, so they pass | `{"type": "constructor"}` (likewise `toString`, `__proto__`, ...) reaches `preference.create` / `payment.create` with no price | any `type` other than `monthly`, `annual`, `premium` is answered 400 before any gateway call | high; not executed | `Payments.ConstructorReachesGateway` (with `Plans.GuardAdmitsNonPlan`) | `Plans.ParsePlan`, used by `Payments.CreatePreference` and `Payments.CreatePix` |

## Left out

- HTTP plumbing: routing, CORS, compression, body parsing, the 404 and error middleware, `app.listen` and SIGINT shutdown. None of it holds business rules.
- `/`, `/health` and `/metrics`: process statistics and floating-point rounding.
- Login and `/api/auth/me`: they depend on the opaque password comparison and the database projection. Token signing is left out as well. Token verification appears only as the parameter `verify` of `Auth.Authenticate`.
- Database failures are not modelled anywhere: the model's stores never fail. In the code each is answered 500. This covers the user lookup in both payment handlers (lines 315-317 and 368-370), which runs before the plan check, so an unknown `type` then gets 500 rather than 400. It covers `findUnique`, `bcrypt.hash` and `create` in registration (lines 191-207), any upsert failure in the webhook, and `findMany`/`count` in the asset listing. If token signing throws after `create` (line 210), the code answers 500 with the user already stored, where `Registration.UserStore.Register` answers `Created`.
- Auth.Authenticate: a database failure during the user lookup, which the code also answers with 403, is not modelled.
- The password hasher is the parameter `hash`. The identifier the database gives a new user is the parameter `id`.
- Registration.Validate: body fields are modelled as optional strings, with a missing field and `""` both falsy. Password length counts Dafny characters, not UTF-16 code units. Non-string JSON values are not modelled.
- Payments.CreatePreference: the contract states the price and the reference of the forwarded request. The item title, description, payer and callback URL appear only in the definition.
- Payments.CreatePix: the contract states the price and the reference of the forwarded charge. The description, payer names and the fixed CPF appear only in the definition, with the names covered by `Payments.PayerNameSplit`.
- The gateway calls (`preference.create`, `payment.create`, `payment.get`) and the shaping of their responses are external. A failed gateway call after forwarding answers 500 and is not modelled.
- Prices are integer centavos instead of floating-point reais. `transaction_amount` is an integer copied unchanged.
- Subscriptions.Webhook: a reference with no `_` has no plan type, and the model answers 500 with the table unchanged. The code differs for a user who already has a subscription: the update skips the undefined `planId`, so the upsert succeeds with plan name `Plano undefined`, a fresh 30-day period and a 200. For a user without one, the create branch lacks `planId`; whether that fails depends on the database schema, which is not part of this model.
- Subscriptions.Webhook: the foreign key from a subscription to its user is not modelled. The model acknowledges an approved payment for any user id in the reference and creates a subscription for it (for example `ghost_monthly_1`), whether or not such a user exists.
- The subscription row's own identifier and the user's creation timestamp are not modelled.
- The two clock reads at lines 437-438 are taken as one instant `now`.
- Asset filtering by category and the case-insensitive search run in the database. The model starts from the matching rows in listing order. `GET /api/assets/:id` is a single lookup (404 when absent) and is not modelled.
- Query coercion: `page` and `limit` are positive naturals. JavaScript string-to-number coercion, `limit = 0` and non-numeric values are not modelled.
- The rate limiter keys the client address as a string (an undefined address becomes the key `"undefined"` in JavaScript). It never evicts expired entries, and the model keeps that. The middleware is synchronous, so requests pass it one at a time.
- Registration.UserStore.Register and Subscriptions.SubscriptionStore.HandleWebhook are atomic stand-ins for handlers that interleave at their `await`s. For example, two registrations with the same email can both pass the lookup at line 191. The second `create` then hits the database's unique constraint and answers 500, where the model answers `EmailTaken` (400).
