# Error normaliser and authentication controller of a bootcamp-directory REST backend

This project models two pieces of an Express/Mongoose backend in Dafny and proves properties about them.

- **The error middleware** (`middleware/error.js`). It receives a failure and sends an HTTP status with a `{success: false, error}` body. It keeps a local `error`, which starts as the shallow copy `{...err}`. Three independent rules then run in sequence, each of which may replace `error` with an `ErrorResponse(message, statusCode)`:
  1. `CastError` (an invalid object id) gives 404 with the message "Bootcamp not found with id of …".
  2. A duplicate key (`code === 11000`) gives 400 with the message "Duplicates fields entered".
  3. `ValidationError` gives 400 with the list of the entries' messages.

  The response is `error.statusCode || 500` and `error.message || 'Server error'`.
- **The authentication controller** (`controllers/auth.js`).
  - `register` creates an account from the body fields `name`, `email`, `password` and `role`, and answers 200 with the account and its signed token.
  - `login` checks three guards in order: credentials present, account exists, password matches. The first failing guard produces that guard's error. When all three pass, login answers 200 with the account and its token.

Files:
- `wrappers.dfy`: `Option`, which stands for a JavaScript property that may be `undefined`.
- `error_handler.dfy` (module `ErrorMiddleware`): the middleware.
  - `ErrorHandler` is a method. Like the source, it holds a mutable local and runs three independent `if`s.
  - `ErrorHandler` is proved equal to `Classify`, a reference definition written the other way round: an `else if` chain that checks the last rule first. The rule lemmas are stated about `Classify`.
- `auth.dfy` (module `AuthController`): the controller.
  - `UserStore` is a class whose `users` field maps an email to its account.
  - `Register` changes that map.
  - `Login` is a method with the source's early returns. It has no `modifies` clause, so it cannot change the store. It is proved equal to `LoginOutcome`, a pure function that takes the first failing guard from the ordered list `LoginGuards`.
  - `matchPassword` (a bcrypt compare) and `getSignedJwtToken` (JWT signing) are function-valued parameters (`Oracles`). Their internals are not modelled.

Facts about the code that the model keeps as written:
- The messages are the code's own strings: "Bootcamp not found with id of …", "Duplicates fields entered", "Email can not registered yet." and "Invalid Password.".
- Login gives different messages for an unknown email and for a wrong password. `LoginDistinguishesUnknownEmail` states this asymmetry.
- The validation message is an array of strings.

Assumptions about the files that are not part of this model:
- `utils/errorReponse` is not part of this model. `ErrorResponse` is taken to be a plain record `(message, statusCode)`. A controller's `next(new ErrorResponse(…))` is taken to reach the middleware with both fields visible to the spread (`Raised`).
- `models/User` is not part of this model. Its schema verdict on a body is a parameter of `Register` (`schemaErrors`), and that schema is taken to require an email. Validation runs before the insert. After validation passes, an email that is already stored fails as the database's duplicate-key error, code 11000 (`DuplicateKeyFailure`). This assumes a unique index on email.

## Model

| member | source | states |
|---|---|---|
| `ErrorMiddleware.ErrorHandler` | middleware/error.js:3-26 | The three independent, in-order reassignments of `error`, followed by the "or" defaults, give exactly the reference classification `Classify`. If `err.errors` is missing for a ValidationError, the handler throws. |
| `ErrorMiddleware.Classify` | middleware/error.js:5-25 | The handler throws exactly when a ValidationError has no `errors`. Otherwise the body has `success == false`, the status is 404, 400, 500 or the truthy copied `statusCode` (never 0), and the body's `error` is never falsy. |
| `ErrorMiddleware.ValidationMessages` | middleware/error.js:20 | `Object.values(errors).map(val => val.message)` gives one message per entry, in enumeration order: same length, and the i-th message is the i-th entry's message. |
| `ErrorMiddleware.CastErrorRule` | middleware/error.js:8-25 | A CastError without code 11000 gives 404 and "Bootcamp not found with id of " followed by the value. |
| `ErrorMiddleware.DuplicateKeyRule` | middleware/error.js:13-25 | Code 11000 on a failure not named ValidationError gives 400 and "Duplicates fields entered". |
| `ErrorMiddleware.ValidationRule` | middleware/error.js:19-25 | A ValidationError with `errors` gives 400 and the list of its entries' messages, one per entry and in order, whatever its code. |
| `ErrorMiddleware.FallThroughRule` | middleware/error.js:5-25 | When no rule matches, the status is the copied `statusCode` if it is truthy, else 500. The message is the copied `message` if it is truthy, else "Server error". |
| `ErrorMiddleware.ValidationOverridesDuplicateKey` | middleware/error.js:13-22 | For a ValidationError, code 11000 makes no difference: the later rule overrides the earlier one. |
| `ErrorMiddleware.DuplicateKeyOverridesCastError` | middleware/error.js:8-17 | With code 11000, being a CastError makes no difference: the duplicate-key result replaces the CastError result. |
| `ErrorMiddleware.OnlyClassifiedFieldsMatter` | middleware/error.js:3-25 | Two failures that agree on name, code, value, errors and the copied status and message get the same outcome. Their own message and stack have no effect. |
| `AuthController.UserStore.Register` | controllers/auth.js:8-21 | A schema rejection or a known email changes nothing and forwards the ValidationError or the code-11000 failure. Otherwise exactly one record, built from name, email, password and role, is added under its email, and every other record is unchanged. The answer is 200, `success`, that record and `sign(record)`. The map stays keyed by email. |
| `AuthController.UserStore.Login` | controllers/auth.js:26-52 | The early-return chain gives `LoginOutcome` of the current store. The method has no `modifies` clause, so the store is unchanged on every path. |
| `AuthController.FirstFailing` | controllers/auth.js:31-46 | No guard is returned exactly when all guards hold. A returned guard is the first one in the list that fails: every guard before it holds. |
| `AuthController.FirstFailingGuardDecides` | controllers/auth.js:31-46 | If guards 0..k-1 hold and guard k fails, guard k decides, whatever the later guards say. |
| `AuthController.LoginFirstFailing` | controllers/auth.js:31-46 | Login's guards are checked in order: presence, then existence, then password match. |
| `AuthController.MissingCredentialsRejected` | controllers/auth.js:31-33 | A falsy email or password gives 400 "Please provide and email & password". The result is the same for every store, so no lookup matters. |
| `AuthController.UnknownEmailRejected` | controllers/auth.js:36-40 | Present credentials with an email that is not stored give 401 "Email can not registered yet.". |
| `AuthController.WrongPasswordRejected` | controllers/auth.js:43-46 | A known email whose account does not match the password gives 401 "Invalid Password.". |
| `AuthController.LoginGrantedIff` | controllers/auth.js:31-51 | Login succeeds if and only if all three guards pass. A success has status 200, `success` true, the stored account and `token == sign(account)`. |
| `AuthController.LoginGrantsThatAccount` | controllers/auth.js:36-51 | In a store keyed by email, the account that login returns is a stored one and carries the email that was asked for. |
| `AuthController.LoginReadsOneRecord` | controllers/auth.js:36-46 | Login depends only on the record stored under the given email. |
| `AuthController.LoginDistinguishesUnknownEmail` | controllers/auth.js:38-46 | An unknown email and a wrong password both give 401, but with different messages, so the response tells them apart. |
| `AuthController.RegisteredUserCanLogIn` | controllers/auth.js:10-51 | After a new account is inserted, login with a matching password returns that account and `sign(account)`. |
| `AuthController.LoginRejectionResponse` | controllers/auth.js:31-46 | Every login rejection is 400 or 401. Through the error middleware, it reaches the client with its own status and message. |
| `AuthController.RegisterFailureResponse` | middleware/error.js:13-22 | A register failure reaches the client as 400. A duplicate key gives "Duplicates fields entered". A schema rejection gives its messages. |

## Left out

- The `console.log(err.stack)` line (middleware/error.js:4) and the Express `res`/`next` mechanics. Outcomes are returned values instead.
- JavaScript value details: non-string body fields, non-numeric `code` or `statusCode`, `NaN`, thrown non-objects, and `null` entries inside `errors`.
  - A number-valued `code` is `Some(n)`. Any other `code` is `None`, so 11000 as a string does not match `===`.
  - `err.value` is taken as the text its template-literal interpolation produces.
  - A truthy non-string email, such as a query-operator object, is not modelled. Because of that, login's query-operator behaviour is not captured.
- If `ErrorResponse` were an `Error` subclass, its message would be stringified (an array becomes comma-joined text) and would not be copied by the spread. This model takes it as a plain record instead, since its file is not part of this model.
- Token signing is modelled as a function of the account only, without the issue time and expiry that JWT signing stamps, so two signings of one account agree only in the model.
- Password hashing, done by the User model (not part of this model), is not modelled. The record stored by `Register` is the record handed to `User.create`.
- `Failed` stands for a rejected `User.create`, which `asyncHandler` forwards to the middleware. `Rejected` stands for login's explicit `next(new ErrorResponse(…))`. No other data-layer rejection is modelled: a failing `findOne` or `matchPassword`, or a connection failure in `create`. The lookup, the compare and the insert always succeed.
- The database's asynchrony and concurrency are not modelled. Each operation is one atomic step on the store.
- `seeder.js`, `server.js`, `routes/bootcamps.js` and `controllers/bootcamps.js` are database plumbing, process bootstrap, a routing table and fixed-response stubs. The query translation, pagination, radius search, photo upload and password-reset handlers are not part of this model.
