/**
 * The add-server dialog of the web client: the form state, its client-side validation, the
 * request body it submits and the reset afterwards. React's rendering and its batching of
 * state updates are outside the model: each handler's updates take effect in order.
 */
module Form {
  import opened Wrappers
  import opened Text
  import DB
  import Routes

  /** The inputs of the form, by their `name` attribute. */
  datatype Field = Name | Hostname | Username | Password | KeyPath | Port | AuthMethod

  /** A map holding every field. */
  predicate Complete(f: map<Field, string>)
  {
    Name in f && Hostname in f && Username in f && Password in f && KeyPath in f && Port in f && AuthMethod in f
  }

  /** The form as it opens and as it is reset: empty except for port 22 and password login. */
  const Initial: map<Field, string> :=
    map[Name := "", Hostname := "", Username := "", Password := "", KeyPath := "", Port := "22", AuthMethod := "password"]

  const NameRequired := "Server name is required"
  const HostnameRequired := "Hostname is required"
  const UsernameRequired := "Username is required"
  const PasswordRequired := "Password is required"
  const KeyPathRequired := "SSH key path is required"
  const PortNotNumber := "Port must be a number"

  /** `!s.trim()`: nothing but white space, which is what trimming to nothing means (Text.JsTrimEmptyIff). */
  predicate Blank(s: string)
  {
    forall i :: 0 <= i < |s| ==> IsJsSpace(s[i])
  }

  /** Whether validate flags field `k` of the form. */
  predicate Flagged(f: map<Field, string>, k: Field)
    requires Complete(f)
  {
    match k
    case Name | Hostname | Username => Blank(f[k])
    case Password => f[AuthMethod] == "password" && f[Password] == ""
    case KeyPath => f[AuthMethod] == "key" && f[KeyPath] == ""
    case Port => f[Port] != "" && !AllDigits(f[Port])
    case AuthMethod => false
  }

  /** The message shown under a flagged field. */
  function Message(k: Field): string
  {
    match k
    case Name => NameRequired
    case Hostname => HostnameRequired
    case Username => UsernameRequired
    case Password => PasswordRequired
    case KeyPath => KeyPathRequired
    case Port | AuthMethod => PortNotNumber
  }

  /** The errors among the fields of `checked`. */
  function ErrorsAmong(f: map<Field, string>, checked: set<Field>): map<Field, string>
    requires Complete(f)
  {
    map k | k in checked && Flagged(f, k) :: Message(k)
  }

  /** The errors validate finds in a form: every flagged field, with its message. */
  function ErrorsFor(f: map<Field, string>): map<Field, string>
    requires Complete(f)
  {
    ErrorsAmong(f, {Name, Hostname, Username, Password, KeyPath, Port})
  }

  /**
   * Each field's error: the three identity fields are flagged when blank after trimming, the
   * credential of the chosen login method when empty, the port when given and not all
   * digits, the login method never; each with its own message.
   */
  lemma ErrorRules(f: map<Field, string>)
    requires Complete(f)
    ensures forall k: Field :: (k in ErrorsFor(f) <==> Flagged(f, k)) && (k in ErrorsFor(f) ==> ErrorsFor(f)[k] == Message(k))
  {
  }

  /** Checking one more field adds its error when its rule fires. */
  lemma CheckOne(f: map<Field, string>, checked: set<Field>, k: Field)
    requires Complete(f) && k !in checked
    ensures ErrorsAmong(f, checked + {k}) == if Flagged(f, k) then ErrorsAmong(f, checked)[k := Message(k)] else ErrorsAmong(f, checked)
  {
  }

  /**
   * Editing a field other than the login method leaves every other field's error as it was:
   * the rules look at one field each, and only the credential rules read the login method.
   */
  lemma ChangeKeepsOtherErrors(f: map<Field, string>, k: Field, v: string)
    requires Complete(f) && k != AuthMethod
    ensures Complete(f[k := v])
    ensures forall j: Field :: j != k ==> (j in ErrorsFor(f[k := v]) <==> j in ErrorsFor(f))
  {
    ErrorRules(f);
    ErrorRules(f[k := v]);
  }

  /** A form passes validation exactly when none of the rules fires. */
  predicate Submittable(f: map<Field, string>)
    requires Complete(f)
  {
    && !Blank(f[Name]) && !Blank(f[Hostname]) && !Blank(f[Username])
    && (f[AuthMethod] == "password" ==> f[Password] != "")
    && (f[AuthMethod] == "key" ==> f[KeyPath] != "")
    && AllDigits(f[Port])
  }

  lemma NoErrorsIff(f: map<Field, string>)
    requires Complete(f)
    ensures ErrorsFor(f) == map[] <==> Submittable(f)
  {
    ErrorRules(f);
    var e := ErrorsFor(f);
    if !Submittable(f) {
      assert Flagged(f, Name) || Flagged(f, Hostname) || Flagged(f, Username) || Flagged(f, Password)
          || Flagged(f, KeyPath) || Flagged(f, Port);
    } else {
      assert forall k: Field :: !Flagged(f, k);
    }
  }

  /** The freshly opened (or reset) form cannot be submitted: the identity and password are missing. */
  lemma InitialNotSubmittable()
    ensures Complete(Initial)
    ensures ErrorsFor(Initial).Keys == {Name, Hostname, Username, Password}
  {
    assert Blank("") && AllDigits("22");
    assert Complete(Initial);
    ErrorRules(Initial);
    assert Flagged(Initial, Name) && Flagged(Initial, Hostname) && Flagged(Initial, Username) && Flagged(Initial, Password);
    assert !Flagged(Initial, KeyPath) && !Flagged(Initial, Port) && !Flagged(Initial, AuthMethod);
  }

  /** The body handleSubmit hands to its caller. */
  datatype ServerData = ServerData(name: string, hostname: string, username: string, port: int,
                                   password: Option<string>, keyPath: Option<string>)

  /** The submission built from a valid form: the port parsed or 22, and one credential. */
  function Submission(f: map<Field, string>): (s: ServerData)
    requires Complete(f) && AllDigits(f[Port])
    ensures s.name == f[Name] && s.hostname == f[Hostname] && s.username == f[Username]
    ensures s.password.Some? <==> f[AuthMethod] == "password"
    ensures s.password.Some? ==> s.password.value == f[Password] && s.keyPath.None?
    ensures s.password.None? ==> s.keyPath == Some(f[KeyPath])
    ensures s.port == if f[Port] == "" then 22 else DigitsValue(f[Port])
  {
    var port := if f[Port] != "" then DigitsValue(f[Port]) else 22;
    if f[AuthMethod] == "password" then ServerData(f[Name], f[Hostname], f[Username], port, Some(f[Password]), None)
    else ServerData(f[Name], f[Hostname], f[Username], port, None, Some(f[KeyPath]))
  }

  /** The submission as the JSON object the client posts, keys in insertion order. */
  function Body(s: ServerData): DB.Object
  {
    [("name", DB.Str(s.name)), ("hostname", DB.Str(s.hostname)), ("username", DB.Str(s.username)), ("port", DB.Int(s.port))]
    + (if s.password.Some? then [("password", DB.Str(s.password.value))]
       else if s.keyPath.Some? then [("key_path", DB.Str(s.keyPath.value))] else [])
  }

  /** What add_server reads from a posted body. */
  lemma BodyFields(s: ServerData)
    ensures var d := Body(s);
      && (forall i :: 0 <= i < |Routes.RequiredFields| ==> DB.Has(d, Routes.RequiredFields[i]))
      && DB.Has(d, "port") && DB.GetOr(d, "port", DB.Null) == DB.Int(s.port)
      && (s.password.Some? ==> DB.GetOr(d, "password", DB.Null) == DB.Str(s.password.value))
      && (s.password.None? && s.keyPath.Some? ==> DB.GetOr(d, "key_path", DB.Null) == DB.Str(s.keyPath.value))
  {
    var d := Body(s);
    var tail := d[4..];
    assert d[0].0 == "name" && d[1].0 == "hostname" && d[2].0 == "username" && d[3] == ("port", DB.Int(s.port));
    assert d[1..][1..][1..][1..] == tail;
    assert "name" != "password" && "hostname" != "password" && "username" != "password" && "port" != "password";
    assert "name" != "key_path" && "hostname" != "key_path" && "username" != "key_path" && "port" != "key_path";
    assert "name" != "port" && "hostname" != "port" && "username" != "port";
    SkipFixed(d, "password");
    SkipFixed(d, "key_path");
  }

  /** Past the four fixed keys of a body, none of which is a credential. */
  lemma SkipFixed(d: DB.Object, key: string)
    requires |d| >= 4 && d[0].0 == "name" && d[1].0 == "hostname" && d[2].0 == "username" && d[3].0 == "port"
    requires key == "password" || key == "key_path"
    ensures DB.GetOr(d, key, DB.Null) == DB.GetOr(d[4..], key, DB.Null)
  {
    assert d[1..][1..][1..][1..] == d[4..];
    assert DB.GetOr(d, key, DB.Null) == DB.GetOr(d[1..], key, DB.Null);
    assert DB.GetOr(d[1..], key, DB.Null) == DB.GetOr(d[1..][1..], key, DB.Null);
    assert DB.GetOr(d[1..][1..], key, DB.Null) == DB.GetOr(d[1..][1..][1..], key, DB.Null);
  }

  /**
   * What the dialog lets through, the server accepts: a valid form with either login method
   * gives a body add_server stores (unless the database fails), with the port the form gave.
   */
  lemma SubmissionAccepted(f: map<Field, string>, freshId: string)
    requires Complete(f) && ErrorsFor(f) == map[]
    requires f[AuthMethod] == "password" || f[AuthMethod] == "key"
    ensures AllDigits(f[Port])
    ensures var r := Routes.AddServerReply(Some(Body(Submission(f))), freshId, None);
      && r.status == 201 && r.body.Record?
      && r.body.record["port"] == DB.Int(if f[Port] == "" then 22 else DigitsValue(f[Port]))
  {
    NoErrorsIff(f);
    var s := Submission(f);
    BodyFields(s);
    Routes.AddServerAccepts(Body(s), freshId, None);
  }

  /** The checks of validate, in the order it makes them. */
  method CollectErrors(f: map<Field, string>) returns (e: map<Field, string>)
    requires Complete(f)
    ensures e == ErrorsFor(f)
  {
    e := map[];
    ghost var checked: set<Field> := {};
    assert e == ErrorsAmong(f, checked);
    if Blank(f[Name]) {
      e := e[Name := NameRequired];
    }
    CheckOne(f, checked, Name);
    checked := checked + {Name};
    assert e == ErrorsAmong(f, checked);
    if Blank(f[Hostname]) {
      e := e[Hostname := HostnameRequired];
    }
    CheckOne(f, checked, Hostname);
    checked := checked + {Hostname};
    assert e == ErrorsAmong(f, checked);
    if Blank(f[Username]) {
      e := e[Username := UsernameRequired];
    }
    CheckOne(f, checked, Username);
    checked := checked + {Username};
    assert e == ErrorsAmong(f, checked);
    if f[AuthMethod] == "password" && f[Password] == "" {
      e := e[Password := PasswordRequired];
    }
    CheckOne(f, checked, Password);
    checked := checked + {Password};
    assert e == ErrorsAmong(f, checked);
    if f[AuthMethod] == "key" && f[KeyPath] == "" {
      e := e[KeyPath := KeyPathRequired];
    }
    CheckOne(f, checked, KeyPath);
    checked := checked + {KeyPath};
    assert e == ErrorsAmong(f, checked);
    if f[Port] != "" && !AllDigits(f[Port]) {
      e := e[Port := PortNotNumber];
    }
    CheckOne(f, checked, Port);
    checked := checked + {Port};
    assert e == ErrorsAmong(f, checked);
    assert checked == {Name, Hostname, Username, Password, KeyPath, Port};
  }

  /** The dialog's state. */
  class ServerForm {
    var formData: map<Field, string>
    var errors: map<Field, string>

    /** Every field of the form has a value. */
    ghost predicate Valid()
      reads this
    {
      Complete(formData)
    }

    constructor ()
      ensures Valid() && formData == Initial && errors == map[]
    {
      formData := Initial;
      errors := map[];
    }

    /** handleChange: sets the one field, and clears its error if one is shown. */
    method HandleChange(name: Field, value: string)
      requires Valid()
      modifies this
      ensures Valid()
      ensures formData == old(formData)[name := value]
      ensures errors == if name in old(errors) && old(errors)[name] != "" then old(errors)[name := ""] else old(errors)
    {
      formData := formData[name := value];
      if name in errors && errors[name] != "" {
        errors := errors[name := ""];
      }
    }

    /** validate: records the form's errors and answers whether there are none. */
    method Validate() returns (ok: bool)
      requires Valid()
      modifies this
      ensures formData == old(formData) && errors == ErrorsFor(formData)
      ensures ok <==> Submittable(formData)
    {
      var newErrors := CollectErrors(formData);
      errors := newErrors;
      NoErrorsIff(formData);
      ok := |errors| == 0;
    }

    /**
     * handleSubmit: a valid form is submitted and the dialog reset; an invalid one stays as it
     * is, showing its errors.
     */
    method HandleSubmit() returns (submitted: Option<ServerData>)
      requires Valid()
      modifies this
      ensures Valid()
      ensures old(Submittable(formData)) ==>
        AllDigits(old(formData)[Port]) && submitted == Some(Submission(old(formData)))
        && formData == Initial && errors == map[]
      ensures !old(Submittable(formData)) ==>
        submitted.None? && formData == old(formData) && errors == ErrorsFor(formData)
    {
      var ok := Validate();
      if !ok {
        return None;
      }
      var port := if formData[Port] != "" then DigitsValue(formData[Port]) else 22;
      var serverData := ServerData(formData[Name], formData[Hostname], formData[Username], port, None, None);
      if formData[AuthMethod] == "password" {
        serverData := serverData.(password := Some(formData[Password]));
      } else {
        serverData := serverData.(keyPath := Some(formData[KeyPath]));
      }
      submitted := Some(serverData);
      formData := Initial;
      errors := map[];
    }
  }
}
