# ada-max-be: access control, request validation and error mapping

A Dafny model of the request boundary of the ada-max-be REST backend: the
Express middlewares `auth`, `validate(schema)` and `errorHandler`, the
application's error classes (`DefaultError`, `AuthError`, `NotFoundError`)
and the three zod request schemas (`signInSchema`, `idSchema`,
`profileSchema`).

Files, one module each:

- `values.dfy` (`Values`): `Option` (`None` is JavaScript's `undefined`),
  a `Json` datatype for parsed request data, and property lookup.
- `errors.dfy` (`Errors`): the error family as one closed datatype with
  `Name()`, `Code()` and `message`, and the three constructors with their
  defaults.
- `schemas.dfy` (`Schemas`): each schema as a function that collects zod
  issues (path plus kind) in zod's order, each proved to return no issue
  exactly when a declarative acceptance predicate holds.
- `middlewares.dfy` (`Middlewares`): `next` as a recorder object that keeps
  every call, the request as an object whose `user` field `auth` assigns,
  `auth` as a method proved against the functions `AuthCalls` and
  `AuthUser`, `validate` as a method proved against `ValidateCall`, and
  `errorHandler` as a total function on the kind of error.

`auth` is modelled as the code behaves: it never returns after
`next(new AuthError(...))`, so it always ends with a bare `next()`. A missing
header yields three calls ("Token não informado", "Token inválido", bare),
a failed verification two, a verified token one. `req.user` is the
payload's `user` on success and `undefined` otherwise.

`validateToken` (the JWT check) is the function parameter `verify` of type
`string -> Option<Payload>`. The only fact about it that lemmas assume is
that it rejects the empty string, which is no compact JWS. That assumption
appears as a hypothesis of those lemmas, never as a `requires` of `Auth`.

The token is `authorization.split(" ")[1] || ""`: `Split` is JavaScript's
split on single spaces (empty pieces kept), proved inverse to `Join` in
both directions, so "Bearer  x" (two spaces) gives the empty token.

`auth` reports a missing header ("Token não informado") separately from a
failed verification ("Token inválido"), and stops after neither.

`errorHandler` tests `ZodError` before `DefaultError`. No value is both, so
this order changes no answer.

## Model

| member | source | states |
|---|---|---|
| `Errors.NewDefaultError` | api/errors/index.js:1-7 | the error keeps the given name, code and message unchanged; an undefined message gives "" |
| `Errors.NewAuthError` | api/errors/index.js:9-13 | name is "AuthError" and code 401 whatever the message; the message is the given one, or "Unauthorized" when none is given |
| `Errors.NewNotFoundError` | api/errors/index.js:15-19 | name is "NotFoundError" and code 404; the message is passed through, "" when none is given |
| `Schemas.StringIssues` | api/schemas/index.js:11-13 | `z.string({ required_error })`: no issue iff the value is a string; an undefined value gives exactly one Required issue with the given message |
| `Schemas.EmailIssues` | api/schemas/index.js:5 | no issue iff the value is a string that the address check accepts; all issues at the field's path |
| `Schemas.MinLengthIssues` | api/schemas/index.js:6 | no issue iff the value is a string at least `minimum` long |
| `Schemas.NumberIssues` | api/schemas/index.js:18 | no issue iff the value is a number |
| `Schemas.EnumIssues` | api/schemas/index.js:20 | no issue iff the value is a string equal to one of the options |
| `Schemas.ObjectTypeIssues` | api/schemas/index.js:4 | no issue iff the value is an object (not null, not an array) |
| `Schemas.SignInIssues` | api/schemas/index.js:3-8 | no issue iff body is an object whose email is an accepted address string and whose password is a non-empty string; every issue is under `body` |
| `Schemas.IdIssues` | api/schemas/index.js:10-14 | no issue iff the top-level `id` is a string; a missing `id` is reported once as "ID é obrigatório" |
| `Schemas.ParamsIdIssues` | api/schemas/index.js:10-14 | corrected idSchema: no issue iff `params` is an object with a string `id`; a missing id is reported at `params.id` as "ID é obrigatório" |
| `Schemas.ProfileIssues` | api/schemas/index.js:16-22 | no issue iff body is an object with a numeric avatarId, a non-empty string name and a color among "1".."5"; every issue is under `body` |
| `Schemas.ProfileFieldRules` | api/schemas/index.js:18-20 | with an object body, an issue is reported at avatarId, name or color exactly when that field's own rule fails |
| `Schemas.SignInPasswordRule` | api/schemas/index.js:6 | with an object body, an issue is reported at password iff it is missing, not a string or empty; a missing one is reported as Required |
| `Schemas.OnlyBodyIsChecked` | api/schemas/index.js:3-22 | sign-in and profile validation depend on `body` alone; query, params and other keys never change the outcome |
| `Middlewares.Split` | middlewares/index.js:13 | `split(" ")`: at least one piece; a string without spaces is its own only piece |
| `Middlewares.SplitPiecesHaveNoSpace` | middlewares/index.js:13 | no piece of a split contains a space |
| `Middlewares.JoinSplit` | middlewares/index.js:13 | joining the pieces with single spaces gives back the header |
| `Middlewares.SplitJoin` | middlewares/index.js:13 | splitting a join of space-free pieces gives back the pieces |
| `Middlewares.ExtractToken` | middlewares/index.js:13-15 | the token contains no space; a header without a space gives "" |
| `Middlewares.SchemeAndToken` | middlewares/index.js:13-15 | for a header "scheme token" (optionally followed by more space-separated text) the token is the second segment exactly |
| `Middlewares.DoubleSpaceGivesEmptyToken` | middlewares/index.js:13-15 | two spaces after the scheme give the empty token |
| `Middlewares.HeaderValue` | middlewares/index.js:7 | the header's value when present, "" when absent |
| `Middlewares.AuthUser` | middlewares/index.js:22 | `req.user` is defined only when the token verifies |
| `Middlewares.AuthSetsUser` | middlewares/index.js:22 | for every header, `req.user` is the payload's `user` when the token verifies and undefined otherwise |
| `Middlewares.AuthCalls` | middlewares/index.js:6-25 | one to three calls; the last is always bare; every earlier one carries a 401 error; the first is "Token não informado" iff the header is empty; a single bare call iff the header is non-empty and the token verifies |
| `Middlewares.Auth` | middlewares/index.js:6-25 | appends exactly the `AuthCalls` sequence to the calls of `next`, sets `req.user` to `AuthUser`, and its last call is bare |
| `Middlewares.AuthMissingHeader` | middlewares/index.js:7-11 | an empty or absent header makes the first call an AuthError, code 401, "Token não informado"; with a verifier that rejects "", exactly three calls and `req.user` undefined |
| `Middlewares.AuthFailedVerification` | middlewares/index.js:18-22 | when verification yields no payload, the call before the final bare one carries AuthError "Token inválido" and `req.user` is undefined |
| `Middlewares.AuthAcceptsBearer` | middlewares/index.js:13-24 | "scheme token" with a verifying token gives exactly one bare call and `req.user` = payload.user |
| `Middlewares.AuthHeaderWithoutSpace` | middlewares/index.js:13-24 | a non-empty header without a space gives "Token inválido" then a bare call, with `req.user` undefined |
| `Middlewares.InputOf` | middlewares/index.js:29-33 | the schema sees exactly the keys body, query and params, with the request's values |
| `Middlewares.ValidateCall` | middlewares/index.js:27-38 | bare iff the schema reports no issue; otherwise the call carries the ZodError with the schema's issues |
| `Middlewares.Validate` | middlewares/index.js:27-38 | exactly one call of `next`, the one `ValidateCall` gives; `req` is not modified |
| `Middlewares.ValidateSignIn` | api/schemas/index.js:3-8 | a request passes sign-in validation iff its body holds an accepted email string and a non-empty password string |
| `Middlewares.ValidateProfile` | api/schemas/index.js:16-22 | a request passes profile validation iff its body has a numeric avatarId, a non-empty name and a color among "1".."5" |
| `Middlewares.ValidateIdAsWritten` | api/schemas/index.js:10-14 | through `validate`, idSchema rejects every request with the single issue "ID é obrigatório" at `id` |
| `Middlewares.ValidateParamsId` | api/schemas/index.js:10-14 | through `validate`, the corrected schema accepts iff params is an object with a string id, and reports a missing id as "ID é obrigatório" |
| `Middlewares.ErrorHandler` | middlewares/index.js:40-60 | calls `next()` iff the error is falsy; answers with a validation body iff the error is a ZodError |
| `Middlewares.ErrorHandlerAppErrors` | middlewares/index.js:48-52 | every DefaultError, AuthError and NotFoundError is answered with its own code and message: 401 and 404 for the two subclasses |
| `Middlewares.ErrorHandlerHidesOtherErrors` | middlewares/index.js:54-56 | any other error gives 500 "Erro interno", independent of what it carries |
| `Middlewares.RejectedValidationIs400` | middlewares/index.js:42-47 | a rejected validation is answered 400 with message "ZodError" and the schema's issues |
| `Middlewares.MissingHeaderIs401` | middlewares/index.js:9-11 | the first error `auth` signals for a missing header is answered 401 "Token não informado" |
| `Middlewares.AuthErrorsAre401` | middlewares/index.js:9-20 | every error call `auth` makes is answered with status 401 |

## Findings

| source | as written | input that shows it | evidently intended | confidence | as-written member | corrected member |
|---|---|---|---|---|---|---|
| api/schemas/index.js:10-14 | idSchema requires a top-level `id`, but `validate` hands every schema `{ body, query, params }`, so `id` is always undefined | any request, e.g. route params `{ id: "7" }`: rejected with "ID é obrigatório" | check the route parameter `params.id` | medium (no route uses idSchema yet); not executed | `Middlewares.ValidateIdAsWritten` | `Middlewares.ValidateParamsId` |

## Left out

- `validateToken` and `getToken` (api/utils/auth.js): HS256 signing, the 24-hour expiry and the clock belong to the jose library. The verifier is a parameter that returns an optional payload. Its rejection of "" is stated as a hypothesis where a lemma needs it.
- Role derivation (`isAdmin ? "admin" : "user"`, api/utils/auth.js:11) happens at token issue, which is not part of this model. The sign-in route passes no `isAdmin` (api/index.js:32), so every issued role is "user".
- Route handlers, knex queries, CORS, body-parser and `listen` (api/index.js) are I/O glue. That includes the 404 answers after an empty update or delete, which depend on database results.
- The application-level error handler at api/index.js:133-135 is not part of this model. That handler is the one the app registers; the exported `errorHandler` modelled here is never registered.
- What Express does when `next` is called several times, or when a status code is out of range, is not part of this model. Only the calls themselves are recorded.
- zod internals are left out: the email regular expression (the parameter `isEmail`), issue message texts other than the Required ones, and stripping of unknown keys. The parsed value is discarded by `validate` anyway.
- Numbers are Dafny `real`s, so NaN and the infinities, which zod treats specially, are not modelled.
- String length is counted in characters, not UTF-16 code units. This makes no difference for the only minimum used, 1.
- `Errors.NewAuthError`: `new AuthError(null)` would give the message "null" in JavaScript. The model only distinguishes a given string from an undefined message.
- The `console.log` diagnostic and async scheduling are left out. The middleware steps run in sequence.
