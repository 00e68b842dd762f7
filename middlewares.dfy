/**
 * The three Express middlewares: `auth` (bearer-token check that sets
 * `req.user`), `validate(schema)` (request-shape check) and `errorHandler`
 * (error kind to HTTP status and body).
 *
 * `next` is modelled as a recorder that keeps every call made to it, in
 * order; `validateToken` is the function parameter `verify`, which returns
 * the token's payload or `None` and never fails otherwise.
 */
module Middlewares {
  import opened Values
  import opened Errors
  import opened Schemas

  // ---------------------------------------------------------------------
  // Values that flow through `next`
  // ---------------------------------------------------------------------

  /** A value handed to `next(err)` or to the error handler. */
  datatype ErrValue =
    | Falsy                        // undefined, null, false, 0, ""
    | Zod(issues: seq<Issue>)      // an instance of zod's ZodError
    | App(error: AppError)         // an instance of DefaultError
    | Other(message: string)       // any other thrown value

  /** One call of `next`: bare, or with an error argument. */
  datatype NextCall = Bare | WithError(err: ErrValue)

  /** The verified JWT payload; `getToken` stores the identity under `user`. */
  datatype Payload = Payload(claims: map<string, Json>) {
    /** `payload.user`. */
    function User(): (user: Option<Json>) { Lookup(claims, "user") }
  }

  const MissingTokenMessage: string := "Token não informado"
  const InvalidTokenMessage: string := "Token inválido"
  const ZodErrorName: string := "ZodError"
  const InternalErrorMessage: string := "Erro interno"

  /** The request object: its headers and inputs are fixed, `user` is assigned. */
  class Request {
    const authorization: Option<string>
    const body: Option<Json>
    const query: Option<Json>
    const params: Option<Json>
    var user: Option<Json>

    constructor (authorization: Option<string>, body: Option<Json>, query: Option<Json>, params: Option<Json>)
      ensures this.authorization == authorization && this.body == body
      ensures this.query == query && this.params == params
      ensures user == None
    {
      this.authorization := authorization;
      this.body := body;
      this.query := query;
      this.params := params;
      user := None;
    }
  }

  /** The `next` callback, remembering every call made to it. */
  class NextRecorder {
    var calls: seq<NextCall>

    constructor ()
      ensures calls == []
    {
      calls := [];
    }

    method Call(c: NextCall)
      modifies this
      ensures calls == old(calls) + [c]
    {
      calls := calls + [c];
    }
  }

  // ---------------------------------------------------------------------
  // Token extraction: `authorization.split(" ")[1] || ""`
  // ---------------------------------------------------------------------

  /** JavaScript's `s.split(" ")`: the pieces between single spaces, empty ones included. */
  function Split(s: string): (parts: seq<string>)
    ensures |parts| >= 1
    ensures ' ' !in s ==> parts == [s]
  {
    if s == [] then [""]
    else
      assert s == [s[0]] + s[1..];
      var rest := Split(s[1..]);
      if s[0] == ' ' then [""] + rest
      else [[s[0]] + rest[0]] + rest[1..]
  }

  /** No piece of a split contains the separator. */
  lemma {:induction false} SplitPiecesHaveNoSpace(s: string)
    ensures forall i :: 0 <= i < |Split(s)| ==> ' ' !in Split(s)[i]
  {
    if s != [] {
      SplitPiecesHaveNoSpace(s[1..]);
    }
  }

  /** `parts.join(" ")`, the inverse of `Split`. */
  function Join(parts: seq<string>): (s: string)
    requires |parts| >= 1
  {
    if |parts| == 1 then parts[0] else parts[0] + " " + Join(parts[1..])
  }

  /** The token handed to `validateToken`: the second space-separated segment, or "". */
  function ExtractToken(authorization: string): (token: string)
    ensures ' ' !in token
    ensures ' ' !in authorization ==> token == ""
  {
    SplitPiecesHaveNoSpace(authorization);
    var parts := Split(authorization);
    if |parts| >= 2 then parts[1] else ""
  }

  /** A space-free prefix stays glued to the first segment of what follows it. */
  lemma {:induction false} SplitPrefix(a: string, b: string)
    requires ' ' !in a
    ensures Split(a + b) == [a + Split(b)[0]] + Split(b)[1..]
  {
    if a == [] {
      var parts := Split(b);
      assert a + b == b && a + parts[0] == parts[0];
      assert parts == [parts[0]] + parts[1..];
    } else {
      var s := a + b;
      assert s[0] == a[0] && a[0] != ' ';
      assert s[1..] == a[1..] + b;
      SplitPrefix(a[1..], b);
      var rest := Split(s[1..]);
      assert Split(s) == [[s[0]] + rest[0]] + rest[1..];
      assert [a[0]] + (a[1..] + Split(b)[0]) == a + Split(b)[0];
    }
  }

  /** Joining the pieces of a split gives back the original string. */
  lemma {:induction false} JoinSplit(s: string)
    ensures Join(Split(s)) == s
  {
    if s != [] {
      var rest := Split(s[1..]);
      JoinSplit(s[1..]);
      if s[0] != ' ' && |rest| > 1 {
        assert Join(rest) == rest[0] + " " + Join(rest[1..]);
        assert Split(s)[1..] == rest[1..];
      }
    }
  }

  /** A leading space starts with an empty segment. */
  lemma SplitLeadingSpace(t: string)
    ensures Split(" " + t) == [""] + Split(t)
  {
  }

  /** One step of `SplitJoin`: a space-free piece put in front of a joined rest. */
  lemma SplitJoinStep(head: string, rest: seq<string>)
    requires ' ' !in head && |rest| >= 1
    requires Split(Join(rest)) == rest
    ensures Split(Join([head] + rest)) == [head] + rest
  {
    var parts := [head] + rest;
    assert parts[1..] == rest;
    var tail := Join(rest);
    assert Join(parts) == head + (" " + tail);
    SplitLeadingSpace(tail);
    SplitPrefix(head, " " + tail);
    assert head + "" == head;
  }

  /** Splitting a join of space-free pieces gives back the pieces. */
  lemma {:induction false} SplitJoin(parts: seq<string>)
    requires |parts| >= 1
    requires forall i :: 0 <= i < |parts| ==> ' ' !in parts[i]
    ensures Split(Join(parts)) == parts
  {
    var head := parts[0];
    assert ' ' !in head;
    if |parts| == 1 {
      SplitPrefix(head, "");
      assert head + "" == head;
    } else {
      SplitJoin(parts[1..]);
      SplitJoinStep(head, parts[1..]);
      assert parts == [head] + parts[1..];
    }
  }

  /**
   * For a header of the expected shape "<scheme> <token>", possibly followed by
   * further space-separated text, the token is exactly the second segment.
   */
  lemma SchemeAndToken(scheme: string, token: string, rest: string)
    requires ' ' !in scheme && ' ' !in token
    requires rest == [] || rest[0] == ' '
    ensures ExtractToken(scheme + " " + token + rest) == token
  {
    var tail := " " + token + rest;
    assert scheme + " " + token + rest == scheme + tail;
    SplitPrefix(scheme, tail);
    assert tail[1..] == token + rest;
    SplitPrefix(token, rest);
    if rest == [] {
      assert token + rest == token + "";
    } else {
      assert rest == [rest[0]] + rest[1..];
    }
  }

  /** Two spaces after the scheme leave an empty second segment, so the token is "". */
  lemma DoubleSpaceGivesEmptyToken(scheme: string, token: string)
    requires ' ' !in scheme
    ensures ExtractToken(scheme + "  " + token) == ""
  {
    assert scheme + "  " + token == scheme + " " + "" + (" " + token);
    SchemeAndToken(scheme, "", " " + token);
  }

  // ---------------------------------------------------------------------
  // auth
  // ---------------------------------------------------------------------

  /** `const { authorization = "" } = req.headers`. */
  function HeaderValue(header: Option<string>): (authorization: string)
    ensures header.Some? ==> authorization == header.value
    ensures header.None? ==> authorization == ""
  {
    match header
    case Some(h) => h
    case None => ""
  }

  /** The calls `auth` makes to `next`, in order. */
  function AuthCalls(header: Option<string>, verify: string -> Option<Payload>): (r: seq<NextCall>)
    ensures 1 <= |r| <= 3 && r[|r| - 1] == Bare
    ensures forall i :: 0 <= i < |r| - 1 ==> r[i].WithError? && r[i].err.App? && r[i].err.error.Code() == 401
    ensures r[0] == WithError(App(AuthError(MissingTokenMessage))) <==> HeaderValue(header) == ""
    ensures r == [Bare] <==> HeaderValue(header) != "" && verify(ExtractToken(HeaderValue(header))).Some?
  {
    var authorization := HeaderValue(header);
    (if authorization == "" then [WithError(App(NewAuthError(Some(MissingTokenMessage))))] else [])
    + (if verify(ExtractToken(authorization)).None? then [WithError(App(NewAuthError(Some(InvalidTokenMessage))))] else [])
    + [Bare]
  }

  /** The value `auth` leaves in `req.user`. */
  function AuthUser(header: Option<string>, verify: string -> Option<Payload>): (user: Option<Json>)
    ensures user.Some? ==> verify(ExtractToken(HeaderValue(header))).Some?
  {
    match verify(ExtractToken(HeaderValue(header)))
    case Some(payload) => payload.User()
    case None => None
  }

  /**
   * For every header, `req.user` is the payload's `user` when the token
   * verifies and undefined when it does not.
   */
  lemma AuthSetsUser(header: Option<string>, verify: string -> Option<Payload>)
    ensures verify(ExtractToken(HeaderValue(header))).Some? ==>
              AuthUser(header, verify) == verify(ExtractToken(HeaderValue(header))).value.User()
    ensures verify(ExtractToken(HeaderValue(header))).None? ==> AuthUser(header, verify) == None
  {
  }

  /**
   * The `auth` middleware. It signals a missing header and a failed
   * verification through `next(error)`, but never returns there, so the
   * last call is always a bare `next()`.
   */
  method Auth(req: Request, next: NextRecorder, verify: string -> Option<Payload>)
    modifies req`user, next
    ensures next.calls == old(next.calls) + AuthCalls(req.authorization, verify)
    ensures req.user == AuthUser(req.authorization, verify)
    ensures next.calls[|next.calls| - 1] == Bare
  {
    var authorization := HeaderValue(req.authorization);
    if authorization == "" {
      next.Call(WithError(App(NewAuthError(Some(MissingTokenMessage)))));
    }
    var token := ExtractToken(authorization);
    var payload := verify(token);
    if payload.None? {
      next.Call(WithError(App(NewAuthError(Some(InvalidTokenMessage)))));
    }
    req.user := if payload.Some? then payload.value.User() else None;
    next.Call(Bare);
  }

  /**
   * A missing or empty header is reported first, as a 401 "Token não
   * informado". The empty token is no compact JWS, so a verifier that
   * rejects it adds "Token inválido", and the bare call makes three.
   */
  lemma AuthMissingHeader(header: Option<string>, verify: string -> Option<Payload>)
    requires HeaderValue(header) == ""
    ensures var r := AuthCalls(header, verify);
            r[0].WithError? && r[0].err.App? &&
            r[0].err.error.Name() == "AuthError" && r[0].err.error.Code() == 401 &&
            r[0].err.error.message == MissingTokenMessage
    ensures verify("").None? ==>
              AuthCalls(header, verify) ==
                [WithError(App(AuthError(MissingTokenMessage))), WithError(App(AuthError(InvalidTokenMessage))), Bare]
                && AuthUser(header, verify) == None
  {
  }

  /**
   * When verification yields no payload, the call just before the final bare
   * one carries AuthError("Token inválido"), and `req.user` is undefined.
   */
  lemma AuthFailedVerification(header: Option<string>, verify: string -> Option<Payload>)
    requires verify(ExtractToken(HeaderValue(header))).None?
    ensures var r := AuthCalls(header, verify);
            |r| >= 2 && r[|r| - 2] == WithError(App(NewAuthError(Some(InvalidTokenMessage))))
    ensures AuthUser(header, verify) == None
  {
  }

  /**
   * A header "<scheme> <token>" whose token verifies makes exactly one, bare,
   * call and sets `req.user` to the payload's `user`.
   */
  lemma AuthAcceptsBearer(scheme: string, token: string, verify: string -> Option<Payload>)
    requires ' ' !in scheme && ' ' !in token
    requires verify(token).Some?
    ensures var header := Some(scheme + " " + token);
            AuthCalls(header, verify) == [Bare] && AuthUser(header, verify) == verify(token).value.User()
  {
    assert scheme + " " + token == scheme + " " + token + "";
    SchemeAndToken(scheme, token, "");
  }

  /**
   * A non-empty header without a space carries no token at all: verification
   * of "" fails, and the request still goes on, with `req.user` undefined.
   */
  lemma AuthHeaderWithoutSpace(h: string, verify: string -> Option<Payload>)
    requires h != "" && ' ' !in h
    requires verify("").None?
    ensures AuthCalls(Some(h), verify) == [WithError(App(AuthError(InvalidTokenMessage))), Bare]
    ensures AuthUser(Some(h), verify) == None
  {
  }

  // ---------------------------------------------------------------------
  // validate(schema)
  // ---------------------------------------------------------------------

  /** The object `{ body, query, params }` handed to the schema. */
  function InputOf(body: Option<Json>, query: Option<Json>, params: Option<Json>): (m: Input)
    ensures m.Keys <= {"body", "query", "params"}
    ensures Lookup(m, "body") == body && Lookup(m, "query") == query && Lookup(m, "params") == params
  {
    var b: Input := if body.Some? then map["body" := body.value] else map[];
    var q: Input := if query.Some? then map["query" := query.value] else map[];
    var p: Input := if params.Some? then map["params" := params.value] else map[];
    b + q + p
  }

  /** The one call `validate` makes: bare on acceptance, with the ZodError otherwise. */
  function ValidateCall(schema: Input -> seq<Issue>, input: Input): (c: NextCall)
    ensures c.Bare? <==> schema(input) == []
    ensures c.WithError? ==> c.err.Zod? && c.err.issues == schema(input) && c.err.issues != []
  {
    var issues := schema(input);
    if issues == [] then Bare else WithError(Zod(issues))
  }

  /**
   * The `validate(schema)` middleware: exactly one call of `next`. It reads
   * the request but changes nothing in it (the parsed value is dropped).
   */
  method Validate(schema: Input -> seq<Issue>, req: Request, next: NextRecorder)
    modifies next
    ensures next.calls == old(next.calls) + [ValidateCall(schema, InputOf(req.body, req.query, req.params))]
    ensures req.user == old(req.user)
  {
    var issues := schema(InputOf(req.body, req.query, req.params));
    if issues == [] {
      next.Call(Bare);
    } else {
      next.Call(WithError(Zod(issues)));
    }
  }

  /** Sign-in requests pass validation exactly when their body is acceptable. */
  lemma ValidateSignIn(body: Option<Json>, query: Option<Json>, params: Option<Json>, isEmail: string -> bool)
    ensures var c := ValidateCall(t => SignInIssues(t, isEmail), InputOf(body, query, params));
            c.Bare? <==> (IsObject(body) &&
              var email := Lookup(body.value.fields, "email");
              var password := Lookup(body.value.fields, "password");
              IsString(email) && isEmail(email.value.s) && IsString(password) && |password.value.s| >= 1)
  {
  }

  /** Profile requests pass validation exactly when their body is acceptable. */
  lemma ValidateProfile(body: Option<Json>, query: Option<Json>, params: Option<Json>)
    ensures var c := ValidateCall(ProfileIssues, InputOf(body, query, params));
            c.Bare? <==> (IsObject(body) &&
              var fields := body.value.fields;
              IsNumber(Lookup(fields, "avatarId")) &&
              IsString(Lookup(fields, "name")) && |Lookup(fields, "name").value.s| >= 1 &&
              IsString(Lookup(fields, "color")) && Lookup(fields, "color").value.s in ["1", "2", "3", "4", "5"])
  {
  }

  /**
   * idSchema as written rejects every request that `validate` checks: the
   * input's keys are body, query and params, so `id` is always missing.
   */
  lemma ValidateIdAsWritten(body: Option<Json>, query: Option<Json>, params: Option<Json>)
    ensures ValidateCall(IdIssues, InputOf(body, query, params))
              == WithError(Zod([Issue(["id"], Required(IdRequiredMessage))]))
  {
    assert "id" !in InputOf(body, query, params);
  }

  /** With the id looked up under `params`, a request passes iff its route id is a string. */
  lemma ValidateParamsId(body: Option<Json>, query: Option<Json>, params: Option<Json>)
    ensures var c := ValidateCall(ParamsIdIssues, InputOf(body, query, params));
            c.Bare? <==> IsObject(params) && IsString(Lookup(params.value.fields, "id"))
    ensures IsObject(params) && "id" !in params.value.fields ==>
              ValidateCall(ParamsIdIssues, InputOf(body, query, params))
                == WithError(Zod([Issue(["params", "id"], Required(IdRequiredMessage))]))
  {
  }

  // ---------------------------------------------------------------------
  // errorHandler
  // ---------------------------------------------------------------------

  datatype ResponseBody =
    | MessageBody(message: string)
    | ValidationBody(message: string, errors: seq<Issue>)

  /** What the handler does: answer with a status and a JSON body, or call `next()`. */
  datatype HandlerResult = Respond(status: int, body: ResponseBody) | PassOn

  /**
   * `errorHandler`. ZodError is tested before DefaultError; as no error is
   * both, the order changes no answer.
   */
  function ErrorHandler(err: ErrValue): (r: HandlerResult)
    ensures r.PassOn? <==> err.Falsy?
    ensures r.Respond? && r.body.ValidationBody? <==> err.Zod?
  {
    match err
    case Falsy => PassOn
    case Zod(issues) => Respond(400, ValidationBody(ZodErrorName, issues))
    case App(e) => Respond(e.Code(), MessageBody(e.message))
    case Other(_) => Respond(500, MessageBody(InternalErrorMessage))
  }

  /**
   * Every error of the DefaultError family is answered with its own code and
   * message; for the two subclasses that is 401 and 404.
   */
  lemma ErrorHandlerAppErrors(e: AppError, m: Option<string>)
    ensures ErrorHandler(App(e)) == Respond(e.Code(), MessageBody(e.message))
    ensures ErrorHandler(App(NewAuthError(m))) ==
              Respond(401, MessageBody(if m.Some? then m.value else UnauthorizedMessage))
    ensures ErrorHandler(App(NewNotFoundError(m))) == Respond(404, MessageBody(ErrorMessage(m)))
  {
  }

  /** Any other thrown value gives the same 500 answer, whatever it carries. */
  lemma ErrorHandlerHidesOtherErrors(m1: string, m2: string)
    ensures ErrorHandler(Other(m1)) == ErrorHandler(Other(m2)) == Respond(500, MessageBody(InternalErrorMessage))
  {
  }

  /** A validation rejection, once handled, is a 400 naming ZodError with its issues. */
  lemma RejectedValidationIs400(schema: Input -> seq<Issue>, input: Input)
    requires schema(input) != []
    ensures var c := ValidateCall(schema, input);
            c.WithError? && ErrorHandler(c.err) == Respond(400, ValidationBody(ZodErrorName, schema(input)))
  {
  }

  /** The first error `auth` signals for a missing header is answered 401 "Token não informado". */
  lemma MissingHeaderIs401(header: Option<string>, verify: string -> Option<Payload>)
    requires HeaderValue(header) == ""
    ensures var r := AuthCalls(header, verify);
            r[0].WithError? && ErrorHandler(r[0].err) == Respond(401, MessageBody(MissingTokenMessage))
  {
  }

  /** Every error `auth` signals is answered with status 401. */
  lemma AuthErrorsAre401(header: Option<string>, verify: string -> Option<Payload>, i: nat)
    requires i < |AuthCalls(header, verify)| - 1
    ensures var r := AuthCalls(header, verify);
            r[i].WithError? && ErrorHandler(r[i].err).Respond? && ErrorHandler(r[i].err).status == 401
  {
  }
}
