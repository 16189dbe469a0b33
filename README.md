# Account lifecycle of the umuziki backends, in Dafny

This project models the account lifecycle that the repository implements
twice, once per backend, and proves what each operation does to the user
table.

- `django_accounts.dfy`, module `DjangoAccounts`: the Django views
  (`backend/grayapp/views.py`). `signup` refuses a taken username, otherwise
  stores an inactive account with a hashed password and mails a link carrying
  `signer.sign(email)`. `verify_email` turns the link back into an email and
  has three outcomes: invalid link, already verified, or activation.
  `get_users` and `get_authenticated_user` project accounts to
  `{id, username, email}`. `update_authenticated_user` edits the caller's own
  account field by field.
- `express_auth.dfy`, module `ExpressAuth`: the Express routes
  (`backend/routes/auth.js`). `/register` refuses a registered email,
  otherwise stores the bcrypt hash, a signed verification token and an expiry
  of `now + 86,400,000` ms. `/verify/:token` accepts only an exact token
  whose expiry lies strictly after `now`, then marks the user verified and
  drops token and expiry. `/login` checks, in order, that the email is known,
  that the user is verified and that the password compares equal, and only
  then issues a token.
- `wrappers.dfy`, module `Wrappers`: the `Option` datatype.
- `strings.dfy`, module `Strings`: the substring test used to state what a
  mail body contains.

Each backend keeps its table, an outbox of sent mail and an id counter in a
`Store` value. Each state-changing operation is written twice:

- as a pure function from the old store to an outcome and a new store
  (`SignupResult`, `VerifyEmailResult`, `UpdateResult`, `RegisterResult`,
  `VerifyResult`);
- as a method of a class (`DjangoAccounts.AccountService`,
  `ExpressAuth.AuthService`) that updates its fields in place.

Each method is proved to produce exactly the function's outcome and store,
and to keep the store invariant (`ValidStore`). The functions' contracts and
the lemmas beside them state the behaviour: which outcome happens when, what
changes, and that nothing else does. Login only reads the table, so it stays
a function (`LoginResult`).

The collaborators are parameters, not code:

- The Django signer, `make_password`, bcrypt's `hash` and `compare`, and
  `jwt.sign` are function-valued fields of a `Config` value. Nothing is
  assumed about them, except where a lemma states an assumption as a
  requirement:
  - `unsign(sign(e)) == Some(e)` for Django's signer
    (`SignupThenVerifyTwice`);
  - `compare(p, hash(p, 12))` for bcrypt (`RegisterVerifyLogin`);
  - no older user already holds the token `jwt.sign` issues at
    registration (`TokenValidWithinADay`, `RegisterVerifyLogin`), since
    verification consumes the first user holding a token;
  - the schema does not default `isVerified` to true
    (`RegisterVerifyLogin`), since otherwise a new user could log in before
    verifying.
- The clock is an `int` argument, `now`.
- The mail transport is an append to the outbox. Its failure is a boolean
  argument, `mailDelivered`, and the model says what the failure leaves
  behind.

Behaviours of the code that are easy to misread:

- Profile update replaces username and email whenever the key is present,
  even when the value is empty (`request.data.get(key, default)`). Only the
  password needs a truthy value.
- The Django user table declares `username` unique, so an update that gives
  the caller another account's username fails on `save()`. `views.py` does
  not catch that error, so the client gets a server error and nothing is
  written. The same happens when a JSON `null` reaches the NOT NULL username
  or email columns. The model has these as the `SaveRejected` outcome.
- Django's `send_mail` drops empty addresses and, when no recipient is
  left, returns without sending and without raising. So signup with an
  empty email succeeds (201) and sends no mail.
- `User.objects.get(email=...)` raises `MultipleObjectsReturned` when two
  accounts share an email, and `views.py` does not catch it. The model has
  this as its own outcome, `MultipleAccounts` (status 500), separate from
  the invalid-link outcome.
- The mailed Django link is built as `http://localhost:8000/api/verify-email/<token>`
  (backend/grayapp/views.py:21). The route table serves `verify-email/<token>/`
  with no `api/` prefix (backend/reponsep/urls.py:33), so the mailed link
  does not reach the view as routed. Routing is not part of this model.

## Model

| member | source | states |
|---|---|---|
| `DjangoAccounts.Serialize` | backend/grayapp/views.py:73-76 | `UserSerializer` exposes exactly the account's id, username and email |
| `DjangoAccounts.Activate` | backend/grayapp/views.py:42-43 | activation sets `is_active` of that one account, keeps its id, username, email and password, and leaves every other account as it was |
| `DjangoAccounts.GetOr` | backend/grayapp/views.py:103-104 | `request.data.get(key, current)`: an absent key keeps the current value, a present string replaces it (even empty), and only a JSON null gives no value |
| `DjangoAccounts.Truthy` | backend/grayapp/views.py:107 | the password test is false for an absent key, a null and an empty string, and true for every non-empty string |
| `ExpressAuth.MatchesToken` | backend/routes/auth.js:68-71 | the verification query matches only the exact token; a missing expiry or one at or before `now` never matches; the token with a later expiry always matches |
| `ExpressAuth.IsVerified` | backend/routes/auth.js:100 | JavaScript truthiness of `isVerified`: an absent field or `false` counts as unverified, `true` as verified |
| `DjangoAccounts.LookupByEmail` | backend/grayapp/views.py:36 | `get(email=...)` ends in exactly one of three ways: not found iff no account has the email; found only for the single account holding it; ambiguous only when two accounts hold it |
| `DjangoAccounts.VerificationMail` | backend/grayapp/views.py:19-27 | the verification mail goes to exactly `[email]`, with the fixed subject and sender, and its body contains `http://localhost:8000/api/verify-email/` followed by `sign(email)` |
| `DjangoAccounts.SignupResult` | backend/grayapp/views.py:51-71 | duplicate-username iff the username is taken, and then nothing changes; otherwise exactly one account is appended with the given username and email, `make_password(password)` and inactive, and all earlier accounts are unchanged; for a non-empty email, exactly one verification mail is sent iff the transport delivers, and a failed send (500) still leaves the account stored; an empty email succeeds and sends nothing; the store invariant is kept |
| `DjangoAccounts.AccountService.SendVerificationEmail` | backend/grayapp/views.py:19-27 | appends the verification mail to the outbox exactly when the address is non-empty and the transport delivers; it raises only when a non-empty address is not delivered; an empty address sends nothing and does not raise |
| `DjangoAccounts.AccountService.Signup` | backend/grayapp/views.py:52-71 | updates the account table, id counter and outbox in place to exactly what `SignupResult` gives, and keeps the store invariant |
| `DjangoAccounts.VerifyEmailResult` | backend/grayapp/views.py:31-48 | invalid-link iff the token does not unsign or no account has the unsigned email; multiple-accounts only when two accounts share it; otherwise a single account holds it: already-verified iff it is active, and verified activates exactly that account; every failure changes nothing; the invariant is kept |
| `DjangoAccounts.AccountService.VerifyEmail` | backend/grayapp/views.py:31-48 | sets `is_active` of the looked-up account in place, giving exactly what `VerifyEmailResult` gives, and keeps the invariant |
| `DjangoAccounts.VerifyTwiceIsAlreadyVerified` | backend/grayapp/views.py:38-45 | after a successful verification, the same token yields already-verified and changes nothing, rather than a second success |
| `DjangoAccounts.GetUsers` | backend/grayapp/views.py:73-86 | the listing has one `{id, username, email}` record per account, position by position |
| `DjangoAccounts.ListingHidesSecrets` | backend/grayapp/views.py:76 | two tables that agree on ids, usernames and emails give the same listing, so the password and `is_active` never show in it |
| `DjangoAccounts.VerifyKeepsListing` | backend/grayapp/views.py:82-86 | no outcome of verification changes what the listing shows |
| `DjangoAccounts.GetAuthenticatedUser` | backend/grayapp/views.py:89-94 | the caller's profile is exactly the caller's own entry of the listing |
| `DjangoAccounts.UpdateResult` | backend/grayapp/views.py:99-111 | the save is rejected iff a username or email is null or the new username belongs to another account, and then nothing changes; otherwise username and email take the body's value whenever the key is present (even empty) and are kept when absent; the password becomes `make_password(p)` only for a truthy `p`; id and `is_active` are kept; no other account changes; the invariant is kept |
| `DjangoAccounts.AccountService.UpdateAuthenticatedUser` | backend/grayapp/views.py:99-111 | assigns the caller's fields in place, giving exactly what `UpdateResult` gives, and keeps the invariant |
| `DjangoAccounts.UpdateEmailOnly` | backend/grayapp/views.py:103-110 | a body holding only a new email succeeds and changes only that account's email |
| `DjangoAccounts.ActivationIsPermanent` | backend/grayapp/views.py:38-45 | no signup, verification or update makes an active account inactive again |
| `DjangoAccounts.SignupThenVerifyTwice` | backend/grayapp/views.py:19-71 | for a fresh username and email: signup succeeds, the account is listed, a mail to a non-empty address carries the link with the token, the first verification activates the account and the second reports already-verified |
| `ExpressAuth.FirstIndex` | backend/routes/auth.js:68-71 | the query result is the first document that matches, and there is none iff no document matches |
| `ExpressAuth.VerificationMail` | backend/routes/auth.js:46-53 | the mail goes to the registered email from `EMAIL_USER` with the fixed subject, and its HTML contains the verification link followed by the token |
| `ExpressAuth.RegisterResult` | backend/routes/auth.js:18-61 | email-taken iff the email is registered, and then nothing changes; otherwise exactly one user is appended, with `bcrypt.hash(password, 12)`, the token signed over the email, an expiry of `now + 86,400,000` and the schema's `isVerified`, and the earlier users are unchanged; success iff the mail is delivered, and a failed send (server error) leaves the user stored; the invariant is kept |
| `ExpressAuth.AuthService.Register` | backend/routes/auth.js:18-61 | updates the collection, counter and outbox in place to exactly what `RegisterResult` gives, and keeps the invariant |
| `ExpressAuth.Consume` | backend/routes/auth.js:79-81 | a verified user is marked verified and has neither token nor expiry; id, email and password are kept |
| `ExpressAuth.VerifyResult` | backend/routes/auth.js:64-88 | success iff some user's token equals the given one exactly and its expiry is strictly after `now`; then only the first such user is changed, by `Consume`; on failure nothing changes; the invariant is kept |
| `ExpressAuth.AuthService.Verify` | backend/routes/auth.js:64-88 | updates the matched user in place, giving exactly what `VerifyResult` gives, and keeps the invariant |
| `ExpressAuth.TokenExpiresAfterADay` | backend/routes/auth.js:37-77 | at any time at or after registration + 86,400,000 ms, no token verifies the new user, and a token no earlier user held is refused with nothing changed |
| `ExpressAuth.TokenValidWithinADay` | backend/routes/auth.js:37-82 | before registration + 86,400,000 ms, the issued token verifies the new user, unless an older user holds the same token |
| `ExpressAuth.ReusedTokenRejected` | backend/routes/auth.js:68-82 | once a token held by a single user has verified it, presenting it again at any time is refused and changes nothing |
| `ExpressAuth.LoginResult` | backend/routes/auth.js:91-119 | an unknown email gives invalid-credentials; for the user found, unverified gives verify-first, then a failed password comparison gives invalid-credentials, and only a verified user with a matching password gets `jwt.sign({userId}, "7d")`; the store is only read |
| `ExpressAuth.UnverifiedIgnoresPassword` | backend/routes/auth.js:100-106 | verify-first is decided before the password is compared: it is the answer for every password |
| `ExpressAuth.RegisterVerifyLogin` | backend/routes/auth.js:18-119 | for a new email: registration succeeds; login is verify-first whatever the password; verification within the day succeeds; login with the registered password then issues a token; the link cannot be reused |

## Left out

- HTTP dispatch, request and response objects, the Express router and the
  Django URL table: each view or route is a function with an outcome
  datatype, whose `Status()` gives the HTTP status.
- The `IsAuthenticated` gate of `get_authenticated_user` and
  `update_authenticated_user` is not modelled. The caller is a precondition:
  an index into the account table. So the unauthenticated (401) outcome is
  not in the model.
- The SimpleJWT login and refresh views, `backend/server.js` (Express, CORS,
  the Mongo connection) and the Mongoose `User` schema are not part of this
  model. The schema's default for `isVerified` is the parameter
  `isVerifiedDefault`. The model assumes the schema stores the
  `verificationToken` and `verificationTokenExpiry` fields that `auth.js`
  writes.
- Cryptography is abstract: Django's `Signer`, `make_password`, bcrypt and
  `jwt.sign` are uninterpreted functions.
  - `make_password` salts with fresh randomness; the model treats it as a
    deterministic function. So "the stored hash differs from the plaintext"
    cannot be stated.
  - The `expiresIn` inside a JWT is passed to `jwt.sign` but never checked by
    this code, so only the stored expiry decides verification.
- Email transport is an append to the outbox plus a delivered-or-not flag;
  the message formats are kept.
- Concurrency: the check-then-create race between two signups or two
  registrations, and async scheduling.
- Server errors are modelled only for a failed mail send, a rejected update
  save (`SaveRejected`) and an ambiguous email lookup (`MultipleAccounts`).
  Not modelled: a failing database, `bcrypt` or `jwt.sign` in the Express
  routes, or a failing `User.objects.create` in Django.
- Request bodies are simplified.
  - Signup and register take their fields as strings; a missing field is not
    modelled.
  - The update body distinguishes absent keys, JSON `null` and strings;
    other JSON values are not modelled.
- `DjangoAccounts.GetUsers`: `User.objects.all()` has no ordering and the
  user model declares none, so the database chooses the order of the
  listing. The model lists accounts in the order of its sequence, so it does
  not capture that order.
- Mongo `findOne` returns "the first match in natural order"; the model
  takes the first match in insertion order. Mongo's `_id` is a counter.
- `get_users` uses `django.contrib.auth.models.User` while the other views
  use `get_user_model()`; the model takes them to be the same table.
