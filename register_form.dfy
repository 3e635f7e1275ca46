/**
 * The sign-up form: its five fields, the schema that checks them, the map
 * from validation issues to per-field error texts, the clearing of a
 * field's error when it is edited, and the steps of a registration: the
 * register request, the sign-in that follows and where the browser goes.
 * The e-mail syntax test is the validator library's, a parameter here.
 */
module RegisterForm {
  import opened Wrappers

  datatype Field = FirstName | LastName | Username | Email | Password

  /** The form fields in schema order. */
  const Fields: seq<Field> := [FirstName, LastName, Username, Email, Password]

  /** A field's name, the key of its value and of its error. */
  function Key(f: Field): string {
    match f
    case FirstName => "firstName"
    case LastName => "lastName"
    case Username => "username"
    case Email => "email"
    case Password => "password"
  }

  lemma KeyInjective(f: Field, g: Field)
    requires Key(f) == Key(g)
    ensures f == g
  {
  }

  datatype RegisterData = RegisterData(firstName: string, lastName: string, username: string, email: string, password: string)

  const EmptyData := RegisterData("", "", "", "", "")

  function ValueOf(d: RegisterData, f: Field): string {
    match f
    case FirstName => d.firstName
    case LastName => d.lastName
    case Username => d.username
    case Email => d.email
    case Password => d.password
  }

  /** `{ ...prev, [name]: value }`. */
  function WithField(d: RegisterData, f: Field, value: string): (r: RegisterData)
    ensures ValueOf(r, f) == value
    ensures forall g :: g != f ==> ValueOf(r, g) == ValueOf(d, g)
  {
    match f
    case FirstName => d.(firstName := value)
    case LastName => d.(lastName := value)
    case Username => d.(username := value)
    case Email => d.(email := value)
    case Password => d.(password := value)
  }

  /** The shortest accepted length of each text field. */
  function MinLength(f: Field): nat {
    match f
    case FirstName => 2
    case LastName => 2
    case Username => 3
    case Email => 0
    case Password => 6
  }

  function Message(f: Field): string {
    match f
    case FirstName => "First name must be at least 2 characters"
    case LastName => "Last name must be at least 2 characters"
    case Username => "Username must be at least 3 characters"
    case Email => "Invalid email address"
    case Password => "Password must be at least 6 characters"
  }

  /** Each field has one check: a minimum length, or the e-mail syntax. */
  predicate FieldFails(d: RegisterData, f: Field, isEmail: string -> bool) {
    if f == Email then !isEmail(d.email) else |ValueOf(d, f)| < MinLength(f)
  }

  /** A validation issue: the path of the offending value and the message. */
  datatype Issue = Issue(path: seq<string>, message: string)

  /** The issues the schema reports for the fields `fs`, in order. */
  function IssuesFor(fs: seq<Field>, d: RegisterData, isEmail: string -> bool): seq<Issue> {
    if fs == [] then []
    else
      var f := fs[|fs| - 1];
      IssuesFor(fs[..|fs| - 1], d, isEmail) + (if FieldFails(d, f, isEmail) then [Issue([Key(f)], Message(f))] else [])
  }

  function SchemaIssues(d: RegisterData, isEmail: string -> bool): seq<Issue> {
    IssuesFor(Fields, d, isEmail)
  }

  /** An issue is filed under the first segment of its path, when that segment is not empty. */
  predicate Keyed(issue: Issue) {
    |issue.path| > 0 && issue.path[0] != ""
  }

  /** The error map the issues produce, each keyed issue overwriting any earlier one for the same field. */
  function ErrorMap(issues: seq<Issue>): map<string, string> {
    if issues == [] then map[]
    else
      var m := ErrorMap(issues[..|issues| - 1]);
      var last := issues[|issues| - 1];
      if Keyed(last) then m[last.path[0] := last.message] else m
  }

  /** The last keyed issue filed under `key`, if any. */
  predicate LastFor(issues: seq<Issue>, key: string, i: int) {
    0 <= i < |issues| && Keyed(issues[i]) && issues[i].path[0] == key
    && forall j :: i < j < |issues| ==> !(Keyed(issues[j]) && issues[j].path[0] == key)
  }

  /** A key has an error exactly when some keyed issue names it, and the error is the last such issue's message. */
  lemma {:induction false} ErrorMapLastWins(issues: seq<Issue>, key: string)
    ensures key in ErrorMap(issues) <==> exists i :: 0 <= i < |issues| && Keyed(issues[i]) && issues[i].path[0] == key
    ensures key in ErrorMap(issues) ==> exists i :: LastFor(issues, key, i) && ErrorMap(issues)[key] == issues[i].message
  {
    if issues != [] {
      var front := issues[..|issues| - 1];
      var last := issues[|issues| - 1];
      ErrorMapLastWins(front, key);
      if Keyed(last) && last.path[0] == key {
        assert LastFor(issues, key, |issues| - 1);
      } else if key in ErrorMap(front) {
        var i :| LastFor(front, key, i) && ErrorMap(front)[key] == front[i].message;
        assert LastFor(issues, key, i);
      } else {
        assert forall i :: 0 <= i < |front| ==> front[i] == issues[i];
      }
    }
  }

  /** The `forEach` over the issues that fills the error map. */
  method FieldErrors(issues: seq<Issue>) returns (errors: map<string, string>)
    ensures errors == ErrorMap(issues)
  {
    errors := map[];
    var i := 0;
    while i < |issues|
      invariant 0 <= i <= |issues|
      invariant errors == ErrorMap(issues[..i])
    {
      var issue := issues[i];
      assert issues[..i + 1][..i] == issues[..i];
      if Keyed(issue) {
        errors := errors[issue.path[0] := issue.message];
      }
      i := i + 1;
    }
    assert issues[..|issues|] == issues;
  }

  /** Appending one issue updates the map at its key, or leaves it as it was. */
  lemma ErrorMapSnoc(issues: seq<Issue>, x: Issue)
    ensures ErrorMap(issues + [x]) == if Keyed(x) then ErrorMap(issues)[x.path[0] := x.message] else ErrorMap(issues)
  {
    assert (issues + [x])[..|issues|] == issues;
  }

  /** A field not among `fs` has no error from their issues. */
  lemma {:induction false} NoErrorOutside(fs: seq<Field>, d: RegisterData, isEmail: string -> bool, f: Field)
    requires f !in fs
    ensures Key(f) !in ErrorMap(IssuesFor(fs, d, isEmail))
  {
    if fs != [] {
      var g := fs[|fs| - 1];
      var front := fs[..|fs| - 1];
      assert f !in front by {
        assert forall x :: x in front ==> x in fs;
      }
      NoErrorOutside(front, d, isEmail, f);
      if FieldFails(d, g, isEmail) {
        ErrorMapSnoc(IssuesFor(front, d, isEmail), Issue([Key(g)], Message(g)));
        if Key(g) == Key(f) {
          KeyInjective(f, g);
        }
      } else {
        assert IssuesFor(fs, d, isEmail) == IssuesFor(front, d, isEmail) + [];
        assert IssuesFor(front, d, isEmail) + [] == IssuesFor(front, d, isEmail);
      }
    }
  }

  /** Over distinct fields, a field has an error exactly when its check fails, and the error is its message. */
  lemma {:induction false} ErrorsForFields(fs: seq<Field>, d: RegisterData, isEmail: string -> bool, f: Field)
    requires forall i, j :: 0 <= i < j < |fs| ==> fs[i] != fs[j]
    requires f in fs
    ensures Key(f) in ErrorMap(IssuesFor(fs, d, isEmail)) <==> FieldFails(d, f, isEmail)
    ensures Key(f) in ErrorMap(IssuesFor(fs, d, isEmail)) ==> ErrorMap(IssuesFor(fs, d, isEmail))[Key(f)] == Message(f)
  {
    var g := fs[|fs| - 1];
    var front := fs[..|fs| - 1];
    assert fs == front + [g];
    var before := IssuesFor(front, d, isEmail);
    if f == g {
      assert f !in front;
      NoErrorOutside(front, d, isEmail, f);
    } else {
      assert f in front;
      ErrorsForFields(front, d, isEmail, f);
    }
    if FieldFails(d, g, isEmail) {
      ErrorMapSnoc(before, Issue([Key(g)], Message(g)));
      if f != g && Key(g) == Key(f) {
        KeyInjective(f, g);
      }
    } else {
      assert IssuesFor(fs, d, isEmail) == before + [];
      assert before + [] == before;
    }
  }

  /** What the form shows after a refused submit: one error per failing field, its own message. */
  lemma SchemaErrors(d: RegisterData, isEmail: string -> bool, f: Field)
    ensures Key(f) in ErrorMap(SchemaIssues(d, isEmail)) <==> FieldFails(d, f, isEmail)
    ensures Key(f) in ErrorMap(SchemaIssues(d, isEmail)) ==> ErrorMap(SchemaIssues(d, isEmail))[Key(f)] == Message(f)
  {
    assert f in Fields by {
      match f
      case FirstName => assert Fields[0] == f;
      case LastName => assert Fields[1] == f;
      case Username => assert Fields[2] == f;
      case Email => assert Fields[3] == f;
      case Password => assert Fields[4] == f;
    }
    ErrorsForFields(Fields, d, isEmail, f);
  }

  /** The body of the register request: the validated fields, nothing else. */
  datatype RegisterRequest = RegisterRequest(username: string, email: string, password: string, firstName: string, lastName: string)

  datatype SubmitOutcome =
    | Ignored                        // the button is disabled while a registration runs
    | Invalid(toast: string)         // the schema refused the data; the errors are on the form
    | Register(request: RegisterRequest)

  datatype AfterRegister =
    | RegisterFailed(toast: string, description: string)
    | SignIn(email: string, password: string)

  datatype SignInResult = SignInOk | SignInNotOk | SignInThrew

  datatype AfterSignIn = Navigate(path: string) | Error(toast: string)

  /** The error description of a refused registration: the server's message, or a fixed text. */
  function FailureDescription(serverMessage: Option<string>): (d: string)
    ensures serverMessage.GetOr("") != "" ==> d == serverMessage.value
    ensures serverMessage.GetOr("") == "" ==> d == "Registration failed"
  {
    if serverMessage.GetOr("") != "" then serverMessage.GetOr("") else "Registration failed"
  }

  class Form {
    var data: RegisterData
    var errors: map<string, string>
    var isLoading: bool

    constructor()
      ensures data == EmptyData && errors == map[] && !isLoading
    {
      data := EmptyData;
      errors := map[];
      isLoading := false;
    }

    /** Typing into a field (the inputs are disabled while loading): it clears that field's error, if it shows one. */
    method HandleChange(f: Field, value: string)
      requires !isLoading
      modifies this
      ensures data == WithField(old(data), f, value)
      ensures Key(f) in old(errors) && old(errors)[Key(f)] != "" ==> errors == old(errors) - {Key(f)}
      ensures !(Key(f) in old(errors) && old(errors)[Key(f)] != "") ==> errors == old(errors)
      ensures isLoading == old(isLoading)
    {
      data := WithField(data, f, value);
      if Key(f) in errors && errors[Key(f)] != "" {
        errors := errors - {Key(f)};
      }
    }

    /** "Continue": clear the errors and validate; a refusal fills them, otherwise the register request goes out. */
    method Submit(isEmail: string -> bool) returns (out: SubmitOutcome)
      modifies this
      ensures old(isLoading) ==> out == Ignored && errors == old(errors) && isLoading
      ensures !old(isLoading) && SchemaIssues(data, isEmail) != [] ==>
                out == Invalid("Please check the form for errors") && errors == ErrorMap(SchemaIssues(data, isEmail)) && !isLoading
      ensures !old(isLoading) && SchemaIssues(data, isEmail) == [] ==>
                out == Register(RegisterRequest(data.username, data.email, data.password, data.firstName, data.lastName))
                && errors == map[] && isLoading
      ensures data == old(data)
    {
      if isLoading {
        return Ignored;
      }
      isLoading := true;
      errors := map[];
      var issues := SchemaIssues(data, isEmail);
      if issues != [] {
        errors := FieldErrors(issues);
        isLoading := false;
        return Invalid("Please check the form for errors");
      }
      out := Register(RegisterRequest(data.username, data.email, data.password, data.firstName, data.lastName));
    }

    /** The register request answered: a refusal ends the attempt, success signs in with the same credentials. */
    method RegisterAnswered(ok: bool, serverMessage: Option<string>) returns (next: AfterRegister)
      modifies this
      ensures !ok ==> next == RegisterFailed("Registration failed", FailureDescription(serverMessage)) && !isLoading
      ensures ok ==> next == SignIn(data.email, data.password) && isLoading == old(isLoading)
      ensures data == old(data) && errors == old(errors)
    {
      if !ok {
        isLoading := false;
        return RegisterFailed("Registration failed", FailureDescription(serverMessage));
      }
      next := SignIn(data.email, data.password);
    }

    /** The sign-in answered: home when it worked, the login page when it did not, a generic error when it threw. */
    method SignInAnswered(result: SignInResult) returns (next: AfterSignIn)
      modifies this
      ensures result == SignInOk ==> next == Navigate("/")
      ensures result == SignInNotOk ==> next == Navigate("/login")
      ensures result == SignInThrew ==> next == Error("An error occurred")
      ensures !isLoading && data == old(data) && errors == old(errors)
    {
      isLoading := false;
      match result
      case SignInOk => next := Navigate("/");
      case SignInNotOk => next := Navigate("/login");
      case SignInThrew => next := Error("An error occurred");
    }
  }
}
