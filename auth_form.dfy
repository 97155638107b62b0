/**
 * The client's login and registration form: the form's fields and error
 * messages are string maps the component updates; `validateForm` rebuilds
 * the errors from the fields and `handleChange` edits one field.
 */
module ClientForms {
  import opened JsText

  // ---------------------------------------------------------------------
  // The email pattern `^[^\s@]+@[^\s@]+\.[^\s@]+$`

  /** `[^\s@]`. */
  predicate Plain(c: char)
  {
    !IsJsWhitespace(c) && c != '@'
  }

  predicate AllPlain(s: string)
  {
    forall k :: 0 <= k < |s| ==> Plain(s[k])
  }

  /** The strings the pattern matches: a non-empty plain run, `@`, a
      non-empty plain run, `.`, and a non-empty plain run. */
  ghost predicate EmailPattern(s: string)
  {
    exists i, j :: 0 < i && i + 1 < j && j + 1 < |s| && s[i] == '@' && s[j] == '.'
      && AllPlain(s[..i]) && AllPlain(s[i + 1..j]) && AllPlain(s[j + 1..])
  }

  /** A decision procedure for the pattern: the text before the first `@`
      is a non-empty plain run, and what follows is plain with a `.` that
      is neither its first nor its last character. */
  function ValidEmail(s: string): bool
  {
    var at := IndexOf(s, "@");
    if at <= 0 then false
    else
      var domain := s[at + 1..];
      AllPlain(s[..at]) && AllPlain(domain) && |domain| >= 3 && '.' in domain[1..|domain| - 1]
  }

  /** The decision procedure accepts exactly the strings of the pattern. */
  lemma ValidEmailIff(s: string)
    ensures ValidEmail(s) <==> EmailPattern(s)
  {
    if ValidEmail(s) {
      ValidEmailSound(s);
    }
    if EmailPattern(s) {
      var i, j :| 0 < i && i + 1 < j && j + 1 < |s| && s[i] == '@' && s[j] == '.'
        && AllPlain(s[..i]) && AllPlain(s[i + 1..j]) && AllPlain(s[j + 1..]);
      ValidEmailComplete(s, i, j);
    }
  }

  lemma ValidEmailSound(s: string)
    requires ValidEmail(s)
    ensures EmailPattern(s)
  {
    var at := IndexOf(s, "@");
    var domain := s[at + 1..];
    var inner := domain[1..|domain| - 1];
    var m :| 0 <= m < |inner| && inner[m] == '.';
    var j := at + 2 + m;
    assert s[j] == inner[m];
    assert s[at] == '@' by { assert "@" <= s[at..]; }
    forall k | at + 1 <= k < |s|
      ensures Plain(s[k])
    {
      assert s[k] == domain[k - at - 1];
    }
    assert AllPlain(s[at + 1..j]);
    assert AllPlain(s[j + 1..]);
  }

  lemma ValidEmailComplete(s: string, i: nat, j: nat)
    requires 0 < i && i + 1 < j && j + 1 < |s| && s[i] == '@' && s[j] == '.'
    requires AllPlain(s[..i]) && AllPlain(s[i + 1..j]) && AllPlain(s[j + 1..])
    ensures ValidEmail(s)
  {
    FirstAt(s, i);
    var domain := s[i + 1..];
    forall k | 0 <= k < |domain|
      ensures Plain(domain[k])
    {
      if i + 1 + k < j {
        assert domain[k] == s[i + 1..j][k];
      } else if i + 1 + k > j {
        assert domain[k] == s[j + 1..][i + k - j];
      }
    }
    assert domain[1..|domain| - 1][j - i - 2] == '.';
  }

  /** When the text before position `i` holds no `@`, the first `@` is at
      `i`. */
  lemma FirstAt(s: string, i: nat)
    requires i < |s| && s[i] == '@' && AllPlain(s[..i])
    ensures IndexOf(s, "@") == i
  {
    assert "@" <= s[i..];
    forall k | 0 <= k < i
      ensures !("@" <= s[k..])
    {
      assert s[k..][0] == s[..i][k];
    }
  }

  // ---------------------------------------------------------------------
  // The errors of a form

  /** `!data[key]`: the field is missing or empty. */
  predicate Blank(data: map<string, string>, key: string)
  {
    key !in data || data[key] == ""
  }

  const LoginFields: set<string> := {"email", "password"}
  const RegisterFields: set<string> := {"name", "email", "phoneNumber", "password"}

  /** The message `validateForm` gives one field, "" for none: the
      `else if` chains give each field at most one message. */
  function ErrorFor(isLogin: bool, data: map<string, string>, key: string): string
  {
    if isLogin then
      if key == "email" && Blank(data, "email") && Blank(data, "phoneNumber") then "Email or phone number is required"
      else if key == "password" && Blank(data, "password") then "Password is required"
      else ""
    else if key == "name" then (if Blank(data, "name") then "Name is required" else "")
    else if key == "email" then
      (if Blank(data, "email") then "Email is required"
       else if !ValidEmail(data["email"]) then "Invalid email format"
       else "")
    else if key == "phoneNumber" then (if Blank(data, "phoneNumber") then "Phone number is required" else "")
    else if key == "password" then
      (if Blank(data, "password") then "Password is required"
       else if |Utf16(data["password"])| < 6 then "Password must be at least 6 characters"
       else "")
    else ""
  }

  /** The error map of a validation: each field of the mode with a
      message, and nothing else. */
  function FormErrors(isLogin: bool, data: map<string, string>): (errors: map<string, string>)
    ensures forall k :: k in errors <==> k in (if isLogin then LoginFields else RegisterFields) && ErrorFor(isLogin, data, k) != ""
    ensures forall k :: k in errors ==> errors[k] == ErrorFor(isLogin, data, k)
  {
    var fields := if isLogin then LoginFields else RegisterFields;
    map k | k in fields && ErrorFor(isLogin, data, k) != "" :: ErrorFor(isLogin, data, k)
  }

  /** A map holding, for each field of the mode, exactly its message is the
      error map of the validation. */
  lemma ErrorsByField(isLogin: bool, data: map<string, string>, m: map<string, string>)
    requires m.Keys <= (if isLogin then LoginFields else RegisterFields)
    requires forall k | k in (if isLogin then LoginFields else RegisterFields) ::
      (k in m <==> ErrorFor(isLogin, data, k) != "") && (k in m ==> m[k] == ErrorFor(isLogin, data, k))
    ensures m == FormErrors(isLogin, data)
  {
  }

  /** Login passes exactly when an email or a phone number and a password
      are given; nothing is checked about their form. */
  lemma LoginValidIff(data: map<string, string>)
    ensures |FormErrors(true, data)| == 0 <==>
      (!Blank(data, "email") || !Blank(data, "phoneNumber")) && !Blank(data, "password")
  {
    var e := FormErrors(true, data);
    if |e| == 0 {
      assert "email" !in e && "password" !in e;
    } else {
      var k :| k in e;
    }
  }

  /** Registration passes exactly when the name and phone number are given,
      the email matches the pattern and the password has at least six
      characters. */
  lemma RegisterValidIff(data: map<string, string>)
    ensures |FormErrors(false, data)| == 0 <==>
      && !Blank(data, "name") && !Blank(data, "phoneNumber")
      && !Blank(data, "email") && EmailPattern(data["email"])
      && !Blank(data, "password") && |Utf16(data["password"])| >= 6
  {
    var e := FormErrors(false, data);
    if !Blank(data, "email") {
      ValidEmailIff(data["email"]);
    }
    if |e| == 0 {
      assert "name" !in e && "email" !in e && "phoneNumber" !in e && "password" !in e;
    } else {
      var k :| k in e;
    }
  }

  /** The login branch of `validateForm`, filling `newErrors`. */
  method LoginErrors(data: map<string, string>) returns (newErrors: map<string, string>)
    ensures newErrors == FormErrors(true, data)
  {
    newErrors := map[];
    if Blank(data, "email") && Blank(data, "phoneNumber") {
      newErrors := newErrors["email" := "Email or phone number is required"];
    }
    if Blank(data, "password") {
      newErrors := newErrors["password" := "Password is required"];
    }
    ErrorsByField(true, data, newErrors);
  }

  /** The registration branch of `validateForm`, filling `newErrors`. */
  method RegisterErrors(data: map<string, string>) returns (newErrors: map<string, string>)
    ensures newErrors == FormErrors(false, data)
  {
    newErrors := map[];
    if Blank(data, "name") {
      newErrors := newErrors["name" := "Name is required"];
    }
    if Blank(data, "email") {
      newErrors := newErrors["email" := "Email is required"];
    } else if !ValidEmail(data["email"]) {
      newErrors := newErrors["email" := "Invalid email format"];
    }
    if Blank(data, "phoneNumber") {
      newErrors := newErrors["phoneNumber" := "Phone number is required"];
    }
    if Blank(data, "password") {
      newErrors := newErrors["password" := "Password is required"];
    } else if |Utf16(data["password"])| < 6 {
      newErrors := newErrors["password" := "Password must be at least 6 characters"];
    }
    ErrorsByField(false, data, newErrors);
  }

  // ---------------------------------------------------------------------
  // The component's state

  class AuthForm {
    const isLogin: bool
    var formData: map<string, string>
    var errors: map<string, string>

    /** The initial state of each mode: empty fields and no errors. */
    constructor (isLogin: bool)
      ensures this.isLogin == isLogin
      ensures formData == if isLogin then map["email" := "", "password" := ""]
                          else map["name" := "", "email" := "", "phoneNumber" := "", "password" := ""]
      ensures errors == map[]
    {
      this.isLogin := isLogin;
      formData := if isLogin then map["email" := "", "password" := ""]
                  else map["name" := "", "email" := "", "phoneNumber" := "", "password" := ""];
      errors := map[];
    }

    /** `handleChange`: the field takes the new value, and its error, when
        it has one, becomes empty; every other field and error is kept. */
    method HandleChange(name: string, value: string)
      modifies this
      ensures formData == old(formData)[name := value]
      ensures name in old(errors) && old(errors)[name] != "" ==> errors == old(errors)[name := ""]
      ensures !(name in old(errors) && old(errors)[name] != "") ==> errors == old(errors)
      ensures forall k :: k != name ==> (k in errors <==> k in old(errors))
      ensures forall k :: k != name && k in errors ==> errors[k] == old(errors)[k]
    {
      formData := formData[name := value];
      if name in errors && errors[name] != "" {
        errors := errors[name := ""];
      }
    }

    /** `validateForm`: the errors are rebuilt from the fields, one check
        after another, and the form is valid when none was recorded. */
    method ValidateForm() returns (valid: bool)
      modifies this
      ensures errors == FormErrors(isLogin, formData)
      ensures valid <==> |errors| == 0
      ensures formData == old(formData)
    {
      var data := formData;
      var newErrors;
      if isLogin {
        newErrors := LoginErrors(data);
      } else {
        newErrors := RegisterErrors(data);
      }
      errors := newErrors;
      valid := |errors| == 0;
    }
  }
}
