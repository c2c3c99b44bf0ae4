# Staffing assistant backend: user directory and chat transcript, in Dafny

This project models the two pieces of sequential logic in a FastAPI backend
for a staffing assistant. The rest of that backend is glue.

1. **The user directory.** There is a `users` table whose email column is
   unique, plus the data-access functions over it and over the reference
   tables (options, queries, departments, designations). On top of them sit
   `register_user` and `validate_user`, and the request validator that admits
   eight designations. The repository holds an older copy of the same user
   code under `bench_management_app/app/`. It is line-for-line the same logic,
   so one model covers both, and the table below cites both copies.
2. **The chat transcript.** An `AIService` object owns a list of messages
   seeded with a fixed persona. `chat` and `summarize` grow that list in place
   around a call to a hosted model.

Files:

- `errors.dfy`, module `Errors`: `Option`, `Result`, the exceptions the code
  raises, and the HTTP status each one becomes (`StatusCode`).
- `dao.dfy`, module `Dao`:
  - the row types;
  - the `users` table (`Table`: rows plus the next fresh id) and its
    constraints (`WellFormed`);
  - the database session (class `Session`), which `SaveUser` writes;
  - the read-only DAO functions over the session's contents (`Store`).
- `user_service.dfy`, module `UserService`: request and response models, the
  designation validator, registration and login.
- `ai_service.dfy`, module `AIChat`: class `AIService` with `Chat` and
  `Summarize`, and the chat route, which builds a fresh service per request.

Library calls are not computed. Instead they are parameters:

- bcrypt hashing, password verification, JWT creation, `str(e)` of an
  exception and the email check (which also normalises the address) are the function-valued fields of a
  `UserService.Lib` value. The one fact assumed about them is
  `HashVerifies`: a password verifies against its own hash. The
  register-then-login round trip needs it.
- The hosted model's answer is the `completion` parameter of `Chat` and
  `Summarize`. It is either the reply text or the exception the client raised.
- `str(chat_history)` is the `serialize` parameter.

Some behaviour of the code may be unexpected. The model follows the code:

- `chat` and `summarize` append the model's reply as a *system* message
  (app/service.py:179 and :216), not as an assistant message.
- `list_queries_per_option` applies no ordering (app/dao.py:82). So the model
  promises exactly the option's queries, in no particular order, not sorted
  by `order_num`. The sequences of a `Store` stand for the order in which
  the database scans each table. `ListInitialOptions` and `ListDepartments`
  return rows in that scan order, which is not a sort order. The filtered
  listings promise contents and multiplicities only.
- `summarize` only returns the reply. The shown code writes no opportunity
  row.
- A duplicate email at registration gives a 500, not a 400. See Findings.

## Model

| member | source | states |
|---|---|---|
| `Dao.Insert` | app/dao.py:34-43 | The insert succeeds exactly when no row holds the email; otherwise it is the integrity error of the unique constraint. A success appends exactly one row carrying the given fields, under an id that is below the next fresh id and, in a well-formed table, not yet used. |
| `Dao.SaveUser` | app/dao.py:20-43 | On a free email, exactly one row is appended: the given fields under the next fresh id. The method returns that row. On a taken email it returns the integrity error and the store is exactly as before, because of the rollback. The reference tables never change. The table's constraints are kept. |
| `Dao.InsertPreservesWellFormed` | app/models.py:9-12 | A successful insert keeps email unique and every id distinct and below the next fresh id. |
| `Dao.SavedUserIsRetrievable` | bench_management_app/app/dao.py:21-30 | After a successful save, a lookup by the new email and a lookup by the new id both return the saved row. A lookup by any other email returns what it returned before. |
| `Dao.RetrieveUserByEmail` | app/dao.py:46-57 | Returns None exactly when no row has the email. Otherwise it returns a stored row with that email. |
| `Dao.RetrieveUserById` | app/dao.py:60-71 | Returns None exactly when no row has the id. Otherwise it returns a stored row with that id. |
| `Dao.RetrieveUserByEmailIsTheRow` | bench_management_app/app/dao.py:33-44 | In a well-formed table, a lookup by a stored row's email returns that very row. |
| `Dao.RetrieveUserByIdIsTheRow` | bench_management_app/app/dao.py:47-58 | In a well-formed table, a lookup by a stored row's id returns that very row. |
| `Dao.ListInitialOptions` | app/dao.py:75-76 | Returns every stored option, in stored order. |
| `Dao.ListQueriesPerOption` | app/dao.py:81-82 | A query is listed exactly when it is stored and belongs to the option. Each one appears as many times as it is stored. No order is promised. |
| `Dao.ListDepartments` | app/dao.py:86-88 | Returns one DTO per stored department, in the same order, with id and name copied. |
| `Dao.ListDesignationsPerDepartment` | app/dao.py:92-94 | A stored designation's DTO is listed exactly when the designation belongs to the department. Each DTO is listed as often as its designation is stored, so the count is the number of matching rows. Every listed DTO belongs to the department and copies a stored designation's id, department id and title. |
| `UserService.ValidateDesignation` | app/service.py:17-25 | Accepts a value exactly when it is one of the eight designations, and returns the value unchanged. Otherwise it raises the ValueError with the validator's message. |
| `UserService.MakeUserCreate` | app/service.py:10-25 | A registration body is accepted exactly when the email is well-formed and the designation is one of the eight. Then the email is replaced by its normalised form and the other fields are copied unchanged. Otherwise the body is rejected with a 422, and each bad field (email, designation) appears among the reported errors. |
| `UserService.InvalidDesignationIsRejected` | bench_management_app/app/service.py:15-23 | A body with designation "InvalidDesignation" is rejected with a 422. |
| `UserService.ToResponse` | app/service.py:84 | No contract of its own (also used at line 129); what the echo holds (id, names, email, designation, no password) is stated by `RegisterStoresHashedCopy`, `LoginOutcome` and `RegisterThenLogin`. |
| `UserService.DecimalString` | app/service.py:124 | `str(user.id)` is a non-empty string of decimal digits. |
| `UserService.DecimalRoundTrip` | app/service.py:124 | Reading `str(id)` back as a decimal number gives the id. |
| `UserService.DecimalStringInjective` | app/service.py:124 | Distinct ids give distinct token subjects. |
| `UserService.TryRegister` | app/service.py:65-84 | No contract of its own; the body of the `try` block (duplicate check, hashing, insert, echo). Pinned down by `RegisterStoresHashedCopy`, `DuplicateEmailIsBadRequest` and `RegisterIntendedAgrees`. |
| `UserService.Register` | app/service.py:65-90 | No contract of its own; `register_user` as written. Pinned down by `RegisterStoresHashedCopy`, `DuplicateEmailIsInternalError`, `RegistrationErrorsAreInternal` and `RegisterThenLogin`. |
| `UserService.RegisterUser` | app/service.py:51-90 | The session's new store and the result are those of `Register`: the duplicate check, hashing, insert and echo, with every failure caught and re-raised. A failure writes nothing. The table's constraints are kept. |
| `UserService.DuplicateEmailIsInternalError` | app/service.py:65-90 | As written, a taken email gives a 500 whose detail is "Failed to register user: " followed by the text of the inner 400. It is not a 400, and nothing is written. |
| `UserService.RegistrationErrorsAreInternal` | bench_management_app/app/service.py:63-88 | Every failed registration is a 500 whose detail starts with "Failed to register user: ". |
| `UserService.RegisterStoresHashedCopy` | app/service.py:74-84 | With a free email, registration succeeds. Exactly one row is appended under a fresh id. It holds `hash(password)`, and first name, last name, email and designation unchanged. The response carries that id and those four fields, and has no password. The table stays well-formed. |
| `UserService.DuplicateEmailIsBadRequest` | bench_management_app/app/service.py:63-70 | With the corrected handler, a taken email is the 400 "Email already registered", and nothing is written. |
| `UserService.RegisterIntendedAgrees` | app/service.py:65-90 | The corrected handler behaves exactly as written whenever the email is free. |
| `UserService.ValidateUser` | app/service.py:93-130 | Every failure is the 401 "Invalid email or password", and an unknown email always fails. A success carries token type "bearer", a token created from `str(id)`, and the echo of a stored row with that email whose password verifies. The table is only read. |
| `UserService.LoginOutcome` | bench_management_app/app/service.py:105-128 | For the row holding the email, login succeeds exactly when the password verifies. Then it returns the bearer token for that row's id and the row itself. Otherwise it returns the same 401 as an unknown email. |
| `UserService.RegisterThenLogin` | bench_management_app/tests/test_controller.py:100-128 | If a password verifies against its own hash, logging in with the credentials just registered succeeds. It returns the bearer token for the new id and exactly the registration's response. |
| `AIChat.Lower` | app/service.py:165 | Lower-casing keeps the length and lower-cases each character. |
| `AIChat.IsSupported` | app/service.py:165 | No contract of its own (also at line 186); the gate `model.lower() == "mistral"`. Pinned down by `SupportedModelNames` and `SupportedModelExamples`. |
| `AIChat.SupportedModelNames` | app/service.py:164-165 | The gate accepts a model name exactly when it spells "mistral" in some mix of letter cases. |
| `AIChat.SupportedModelExamples` | app/service.py:186-188 | "mistral", "Mistral" and "MISTRAL" pass the gate. "mistral-large-latest" and "gpt-4" do not. |
| `AIChat.AIService.constructor` | app/service.py:145-162 | A new service's transcript is exactly one system message holding the persona. |
| `AIChat.AIService.Chat` | app/service.py:164-183 | With any other model name, the call raises "AI model is not currently supported or does not exist" and leaves the transcript unchanged. For the supported model, the transcript becomes old + history + [user prompt, reply as a system message]. The call returns the reply and the transcript after its first message. If the model call raises, the transcript keeps the history and the prompt and the error propagates. The persona stays first. |
| `AIChat.AIService.Summarize` | app/service.py:185-220 | With any other model name, the call raises the unsupported-model error and leaves the transcript unchanged. For the supported model, the transcript becomes old + [instructions as a system message, the serialised history as a user message, the reply as a system message], and the reply is returned. If the model call raises, only the first two are appended. |
| `AIChat.ChatRoute` | app/controller.py:44-56 | With a fresh service per request, the caller gets back the reply and its own history followed by its prompt and the reply. The persona is never echoed. |

## Left out

- The hosted-model call is not modelled: `Mistral(...)`, `client.chat.complete`, and the rewrite of the model name to "mistral-large-latest" before sending (app/service.py:166-178, 187-215). It is a network call. Its outcome is the `completion` parameter.
- A missing `MISTRAL_API_KEY` is not modelled. Reading it raises `KeyError` after the gate, before the transcript changes. It is environment state.
- `str(chat_history)` is not modelled. It is Python's rendering of the client library's message objects, so it is the uninterpreted `serialize` parameter.
- bcrypt, `verify_password` and `create_access_token` live in `app.auth`, and `app.auth` is not part of this model. The token is a function of its subject alone: expiry and other claims are not modelled.
- The two `generate_password_hash.py` scripts are command-line wrappers around the hashing library and are not modelled.
- `AIChat.Lower`: lower-cases ASCII letters only. Python's `str.lower` also folds other scripts. The gate's verdict should not change, since no single non-ASCII character lower-cases to a letter of "mistral".
- `UserService.MakeUserCreate`: the email check and its normalisation (trimming, unwrapping "Name <address>", lower-casing the domain) are the abstract `Lib.validateEmail`. The message "value is not a valid email address" is the library's wording, not the source's. Missing fields and wrong JSON types are not modelled.
- `UserService.DesignationMessage` lists the eight names in one fixed order. Python prints the set in its own iteration order.
- SQLAlchemy session mechanics are not modelled. This covers add, commit, refresh and rollback as separate steps, the connection, and the in-memory SQLite set-up of the tests. `Dao.Insert` fails only on the unique email constraint. Column length limits and the designation enum constraint of app/models.py are not enforced by the model.
- Ids are modelled as a counter (`Table.nextId`) that only a successful insert advances. The model promises only that the id is fresh.
- Concurrency is not modelled. Two registrations racing between the duplicate check and the commit would reach the integrity-error path of `SaveUser`. In the sequential model that path is unreachable from `RegisterUser`.
- HTTP routing and app set-up are not modelled. This covers the other routes of app/controller.py (including the username-to-email mapping at line 41 and the login form's validation), main.py, and the Flask stubs in api/. They are framework glue.
- Opportunity persistence, retrieval-augmented chat and index building are not in the modelled code.

## Findings

| source | as written | input that shows it | evidently intended | confidence | as-written member | corrected member |
|---|---|---|---|---|---|---|
| app/service.py:65-90 (same code at bench_management_app/app/service.py:63-88) | The `HTTPException(400, "Email already registered")` is raised inside the `try`. The `except Exception` clause catches it and re-raises it as a 500 with detail "Failed to register user: " + `str(e)`. | Registering an email that is already in the table, as tests/test_service.py:71-85 and bench_management_app/tests/test_controller.py:56-83 do. | The duplicate is reported as the 400 "Email already registered", which both tests assert. | high; not executed | `UserService.DuplicateEmailIsInternalError` (about `UserService.Register`) | `UserService.DuplicateEmailIsBadRequest` (about `UserService.RegisterIntended`, which agrees with `Register` otherwise: `UserService.RegisterIntendedAgrees`) |
