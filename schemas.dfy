/**
 * The request schemas. A zod schema either accepts its input or collects
 * one issue per violated constraint; validation succeeds exactly when no
 * issue is collected. Each schema is modelled twice: as the function that
 * collects the issues the way zod walks the object shape (declared keys in
 * order, a key's type check before its refinements), and as a declarative
 * acceptance predicate that the issue list is proved to agree with.
 */
module Schemas {
  import opened Values

  /** What an `invalid_type` issue expected. */
  datatype Expected = ExpectString | ExpectNumber | ExpectObject | ExpectOneOf(options: seq<string>)

  datatype IssueKind =
    | Required(message: string)   // invalid_type where the value is undefined
    | InvalidType(expected: Expected)
    | InvalidEmail
    | TooSmall(minimum: nat)
    | InvalidEnumValue(options: seq<string>, received: string)

  /** One entry of `ZodError.errors`: where it is and what went wrong. */
  datatype Issue = Issue(path: seq<string>, kind: IssueKind)

  /** The object handed to a schema: the top-level keys and their values. */
  type Input = map<string, Json>

  const RequiredMessage: string := "Required"
  const IdRequiredMessage: string := "ID é obrigatório"
  const ColorOptions: seq<string> := ["1", "2", "3", "4", "5"]

  predicate IsString(v: Option<Json>) { v.Some? && v.value.JStr? }
  predicate IsNumber(v: Option<Json>) { v.Some? && v.value.JNum? }
  predicate IsObject(v: Option<Json>) { v.Some? && v.value.JObj? }

  /** Every issue in `r` is reported at `path`. */
  predicate AllAt(r: seq<Issue>, path: seq<string>) {
    forall i :: 0 <= i < |r| ==> r[i].path == path
  }

  /** Every issue in `r` is reported below the top-level key `key`. */
  predicate AllBelow(r: seq<Issue>, key: string) {
    forall i :: 0 <= i < |r| ==> |r[i].path| >= 1 && r[i].path[0] == key
  }

  /** Some issue in `r` is reported at `path`. */
  predicate HasIssueAt(r: seq<Issue>, path: seq<string>) {
    exists i :: 0 <= i < |r| && r[i].path == path
  }

  // ---------------------------------------------------------------------
  // Field schemas
  // ---------------------------------------------------------------------

  /** `z.string({ required_error })`. */
  function StringIssues(v: Option<Json>, path: seq<string>, requiredMessage: string): (r: seq<Issue>)
    ensures r == [] <==> IsString(v)
    ensures AllAt(r, path) && |r| <= 1
    ensures v.None? ==> r == [Issue(path, Required(requiredMessage))]
  {
    match v
    case None => [Issue(path, Required(requiredMessage))]
    case Some(JStr(_)) => []
    case Some(_) => [Issue(path, InvalidType(ExpectString))]
  }

  /** `z.string().email()`; the address check is the parameter `isEmail`. */
  function EmailIssues(v: Option<Json>, path: seq<string>, isEmail: string -> bool): (r: seq<Issue>)
    ensures r == [] <==> IsString(v) && isEmail(v.value.s)
    ensures AllAt(r, path)
  {
    if IsString(v) then
      if isEmail(v.value.s) then [] else [Issue(path, InvalidEmail)]
    else StringIssues(v, path, RequiredMessage)
  }

  /** `z.string().min(minimum)`. */
  function MinLengthIssues(v: Option<Json>, path: seq<string>, minimum: nat): (r: seq<Issue>)
    ensures r == [] <==> IsString(v) && |v.value.s| >= minimum
    ensures AllAt(r, path)
  {
    if IsString(v) then
      if |v.value.s| < minimum then [Issue(path, TooSmall(minimum))] else []
    else StringIssues(v, path, RequiredMessage)
  }

  /** `z.number()`. */
  function NumberIssues(v: Option<Json>, path: seq<string>): (r: seq<Issue>)
    ensures r == [] <==> IsNumber(v)
    ensures AllAt(r, path)
  {
    match v
    case None => [Issue(path, Required(RequiredMessage))]
    case Some(JNum(_)) => []
    case Some(_) => [Issue(path, InvalidType(ExpectNumber))]
  }

  /** `z.enum(options)`: a string equal to one of the options. */
  function EnumIssues(v: Option<Json>, path: seq<string>, options: seq<string>): (r: seq<Issue>)
    ensures r == [] <==> IsString(v) && v.value.s in options
    ensures AllAt(r, path)
  {
    match v
    case None => [Issue(path, Required(RequiredMessage))]
    case Some(JStr(s)) => if s in options then [] else [Issue(path, InvalidEnumValue(options, s))]
    case Some(_) => [Issue(path, InvalidType(ExpectOneOf(options)))]
  }

  /** The type check of `z.object(...)` alone, before any key is looked at. */
  function ObjectTypeIssues(v: Option<Json>, path: seq<string>): (r: seq<Issue>)
    ensures r == [] <==> IsObject(v)
    ensures AllAt(r, path)
  {
    match v
    case None => [Issue(path, Required(RequiredMessage))]
    case Some(JObj(_)) => []
    case Some(_) => [Issue(path, InvalidType(ExpectObject))]
  }

  // ---------------------------------------------------------------------
  // signInSchema: { body: { email: string().email(), password: string().min(1) } }
  // ---------------------------------------------------------------------

  ghost predicate SignInAccepts(top: Input, isEmail: string -> bool) {
    var body := Lookup(top, "body");
    IsObject(body) &&
    var email := Lookup(body.value.fields, "email");
    var password := Lookup(body.value.fields, "password");
    IsString(email) && isEmail(email.value.s) &&
    IsString(password) && |password.value.s| >= 1
  }

  function SignInIssues(top: Input, isEmail: string -> bool): (r: seq<Issue>)
    ensures r == [] <==> SignInAccepts(top, isEmail)
    ensures AllBelow(r, "body")
  {
    var body := Lookup(top, "body");
    if IsObject(body) then
      var fields := body.value.fields;
      EmailIssues(Lookup(fields, "email"), ["body", "email"], isEmail)
      + MinLengthIssues(Lookup(fields, "password"), ["body", "password"], 1)
    else ObjectTypeIssues(body, ["body"])
  }

  // ---------------------------------------------------------------------
  // idSchema: { id: string({ required_error: "ID é obrigatório" }) }
  // ---------------------------------------------------------------------

  /** idSchema as written: it looks for `id` among the top-level keys. */
  function IdIssues(top: Input): (r: seq<Issue>)
    ensures r == [] <==> IsString(Lookup(top, "id"))
    ensures "id" !in top ==> r == [Issue(["id"], Required(IdRequiredMessage))]
    ensures AllAt(r, ["id"])
  {
    StringIssues(Lookup(top, "id"), ["id"], IdRequiredMessage)
  }

  /** idSchema with the route parameter where validation puts it: `params.id`. */
  function ParamsIdIssues(top: Input): (r: seq<Issue>)
    ensures r == [] <==> IsObject(Lookup(top, "params")) && IsString(Lookup(Lookup(top, "params").value.fields, "id"))
    ensures IsObject(Lookup(top, "params")) && "id" !in Lookup(top, "params").value.fields ==>
              r == [Issue(["params", "id"], Required(IdRequiredMessage))]
    ensures AllBelow(r, "params")
  {
    var params := Lookup(top, "params");
    if IsObject(params) then
      StringIssues(Lookup(params.value.fields, "id"), ["params", "id"], IdRequiredMessage)
    else ObjectTypeIssues(params, ["params"])
  }

  // ---------------------------------------------------------------------
  // profileSchema: { body: { avatarId: number(), name: string().min(1),
  //                          color: enum(["1", "2", "3", "4", "5"]) } }
  // ---------------------------------------------------------------------

  ghost predicate ProfileAccepts(top: Input) {
    var body := Lookup(top, "body");
    IsObject(body) &&
    var avatarId := Lookup(body.value.fields, "avatarId");
    var name := Lookup(body.value.fields, "name");
    var color := Lookup(body.value.fields, "color");
    IsNumber(avatarId) &&
    IsString(name) && |name.value.s| >= 1 &&
    IsString(color) && color.value.s in ColorOptions
  }

  function ProfileIssues(top: Input): (r: seq<Issue>)
    ensures r == [] <==> ProfileAccepts(top)
    ensures AllBelow(r, "body")
  {
    var body := Lookup(top, "body");
    if IsObject(body) then
      var fields := body.value.fields;
      NumberIssues(Lookup(fields, "avatarId"), ["body", "avatarId"])
      + MinLengthIssues(Lookup(fields, "name"), ["body", "name"], 1)
      + EnumIssues(Lookup(fields, "color"), ["body", "color"], ColorOptions)
    else ObjectTypeIssues(body, ["body"])
  }

  // ---------------------------------------------------------------------
  // Properties
  // ---------------------------------------------------------------------

  /** An issue list made of two parts has an issue at `path` iff one part does. */
  lemma HasIssueAtConcat(a: seq<Issue>, b: seq<Issue>, path: seq<string>)
    ensures HasIssueAt(a + b, path) <==> HasIssueAt(a, path) || HasIssueAt(b, path)
  {
    if HasIssueAt(a + b, path) {
      var i :| 0 <= i < |a + b| && (a + b)[i].path == path;
      if i >= |a| {
        assert b[i - |a|].path == path;
      }
    }
    if HasIssueAt(a, path) {
      var j :| 0 <= j < |a| && a[j].path == path;
      assert (a + b)[j].path == path;
    }
    if HasIssueAt(b, path) {
      var j :| 0 <= j < |b| && b[j].path == path;
      assert (a + b)[|a| + j].path == path;
    }
  }

  /** Issues that all sit at `here` say nothing about another path. */
  lemma AllAtElsewhere(r: seq<Issue>, here: seq<string>, path: seq<string>)
    requires AllAt(r, here) && here != path
    ensures !HasIssueAt(r, path)
  {
  }

  /** Issues all at `path` are reported there exactly when there are any. */
  lemma AllAtHere(r: seq<Issue>, path: seq<string>)
    requires AllAt(r, path)
    ensures HasIssueAt(r, path) <==> r != []
  {
    if r != [] {
      assert r[0].path == path;
    }
  }

  /**
   * Once the body is an object, each profile field is judged on its own: an
   * issue is reported at that field exactly when its own rule fails.
   */
  lemma ProfileFieldRules(top: Input)
    requires IsObject(Lookup(top, "body"))
    ensures var fields := Lookup(top, "body").value.fields;
            var r := ProfileIssues(top);
            (HasIssueAt(r, ["body", "avatarId"]) <==> !IsNumber(Lookup(fields, "avatarId"))) &&
            (HasIssueAt(r, ["body", "name"]) <==>
               !(IsString(Lookup(fields, "name")) && |Lookup(fields, "name").value.s| >= 1)) &&
            (HasIssueAt(r, ["body", "color"]) <==>
               !(IsString(Lookup(fields, "color")) && Lookup(fields, "color").value.s in ColorOptions))
  {
    var fields := Lookup(top, "body").value.fields;
    var a := NumberIssues(Lookup(fields, "avatarId"), ["body", "avatarId"]);
    var n := MinLengthIssues(Lookup(fields, "name"), ["body", "name"], 1);
    var c := EnumIssues(Lookup(fields, "color"), ["body", "color"], ColorOptions);
    assert ProfileIssues(top) == a + n + c;
    var paths := [["body", "avatarId"], ["body", "name"], ["body", "color"]];
    forall p | p in paths
      ensures HasIssueAt(a + n + c, p) <==> HasIssueAt(a, p) || HasIssueAt(n, p) || HasIssueAt(c, p)
    {
      HasIssueAtConcat(a + n, c, p);
      HasIssueAtConcat(a, n, p);
    }
    AllAtHere(a, ["body", "avatarId"]);
    AllAtElsewhere(a, ["body", "avatarId"], ["body", "name"]);
    AllAtElsewhere(a, ["body", "avatarId"], ["body", "color"]);
    AllAtHere(n, ["body", "name"]);
    AllAtElsewhere(n, ["body", "name"], ["body", "avatarId"]);
    AllAtElsewhere(n, ["body", "name"], ["body", "color"]);
    AllAtHere(c, ["body", "color"]);
    AllAtElsewhere(c, ["body", "color"], ["body", "avatarId"]);
    AllAtElsewhere(c, ["body", "color"], ["body", "name"]);
  }

  /**
   * A sign-in body is rejected at `password` exactly when the password is
   * missing, not a string, or empty; a missing one is reported as required.
   */
  lemma SignInPasswordRule(top: Input, isEmail: string -> bool)
    requires IsObject(Lookup(top, "body"))
    ensures var password := Lookup(Lookup(top, "body").value.fields, "password");
            var r := SignInIssues(top, isEmail);
            (HasIssueAt(r, ["body", "password"]) <==> !(IsString(password) && |password.value.s| >= 1)) &&
            (password.None? ==> Issue(["body", "password"], Required(RequiredMessage)) in r)
  {
    var fields := Lookup(top, "body").value.fields;
    var e := EmailIssues(Lookup(fields, "email"), ["body", "email"], isEmail);
    var p := MinLengthIssues(Lookup(fields, "password"), ["body", "password"], 1);
    assert SignInIssues(top, isEmail) == e + p;
    HasIssueAtConcat(e, p, ["body", "password"]);
    AllAtElsewhere(e, ["body", "email"], ["body", "password"]);
    AllAtHere(p, ["body", "password"]);
    if Lookup(fields, "password").None? {
      assert (e + p)[|e|] == Issue(["body", "password"], Required(RequiredMessage));
    }
  }

  /** Only `body` is constrained: `query`, `params` and any other key are ignored. */
  lemma OnlyBodyIsChecked(t1: Input, t2: Input, isEmail: string -> bool)
    requires Lookup(t1, "body") == Lookup(t2, "body")
    ensures SignInIssues(t1, isEmail) == SignInIssues(t2, isEmail)
    ensures ProfileIssues(t1) == ProfileIssues(t2)
  {
  }
}
