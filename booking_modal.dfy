/**
 * BookingModal: the tour booking form. Its state is the four form fields,
 * a map from field to error message and a submitted flag. Submitting
 * validates the fields against the booking schema: on failure the schema's
 * issues become the error map, on success the errors are cleared and the
 * form latches into its submitted state. Closing resets everything.
 *
 * The e-mail format check of the schema is not modelled; it is the
 * parameter `isEmail`, applied to the trimmed e-mail.
 */
module BookingModal {

  /** The keys of the form data and of the error map. */
  datatype Field = Name | Email | Phone | TourType

  /** The `formData` state object. */
  datatype FormData = FormData(name: string, email: string, phone: string, tourType: string)

  /** One validation issue: the field it is about and its message. */
  datatype Issue = Issue(field: Field, message: string)

  /** The three tours the form offers, in the order they are listed. */
  datatype Tour = Weekend | Week | Premium

  const NameMin: nat := 1
  const NameMax: nat := 100
  const EmailMax: nat := 255
  const PhoneMin: nat := 10
  const PhoneMax: nat := 20
  const TourTypeMin: nat := 1

  const NameRequired: string := "Введите имя"
  const NameTooLong: string := "Имя слишком длинное"
  const EmailInvalid: string := "Неверный email"
  const EmailTooLong: string := "Email слишком длинный"
  const PhoneRequired: string := "Введите номер телефона"
  const PhoneTooLong: string := "Номер слишком длинный"
  const TourRequired: string := "Выберите тур"

  /** The form as it is first shown and after it is closed. */
  const Blank: FormData := FormData("", "", "", "")

  /** The value a tour's radio button puts into `tourType`. */
  function TourId(t: Tour): (id: string)
    ensures id == "weekend" || id == "week" || id == "premium"
    ensures |id| >= TourTypeMin
  {
    match t
    case Weekend => "weekend"
    case Week => "week"
    case Premium => "premium"
  }

  /** Whatever else the form holds, a chosen tour satisfies the schema's tour rule. */
  lemma SelectedTourPassesCheck(d: FormData, isEmail: string -> bool, t: Tour)
    ensures FieldIssues(d.(tourType := TourId(t)), isEmail, TourType) == []
  {
  }

  /** The characters JavaScript's `trim` removes: white space and line terminators. */
  predicate IsWhitespace(c: char)
  {
    || c == '\t' || c == '\n' || c == '\U{000B}' || c == '\U{000C}' || c == '\r'
    || c == ' ' || c == '\U{00A0}' || c == '\U{1680}'
    || ('\U{2000}' <= c <= '\U{200A}')
    || c == '\U{2028}' || c == '\U{2029}' || c == '\U{202F}' || c == '\U{205F}'
    || c == '\U{3000}' || c == '\U{FEFF}'
  }

  predicate AllWhitespace(s: string)
  {
    forall i :: 0 <= i < |s| ==> IsWhitespace(s[i])
  }

  /** `s` without its leading white space. */
  function TrimStart(s: string): (r: string)
    ensures |r| <= |s|
    decreases |s|
  {
    if |s| > 0 && IsWhitespace(s[0]) then TrimStart(s[1..]) else s
  }

  /** `s` without its trailing white space. */
  function TrimEnd(s: string): (r: string)
    ensures |r| <= |s|
    decreases |s|
  {
    if |s| > 0 && IsWhitespace(s[|s| - 1]) then TrimEnd(s[..|s| - 1]) else s
  }

  /** JavaScript's `String.prototype.trim`. */
  function Trim(s: string): (r: string)
    ensures |r| <= |s|
  {
    TrimEnd(TrimStart(s))
  }

  /** TrimStart drops a run of white space from the front, and only that. */
  lemma {:induction false} TrimStartDropsLeadingBlank(s: string)
    ensures |TrimStart(s)| <= |s| && TrimStart(s) == s[|s| - |TrimStart(s)|..]
    ensures AllWhitespace(s[..|s| - |TrimStart(s)|])
    ensures TrimStart(s) == [] || !IsWhitespace(TrimStart(s)[0])
    decreases |s|
  {
    if |s| > 0 && IsWhitespace(s[0]) {
      TrimStartDropsLeadingBlank(s[1..]);
    }
  }

  /** TrimEnd drops a run of white space from the back, and only that. */
  lemma {:induction false} TrimEndDropsTrailingBlank(s: string)
    ensures |TrimEnd(s)| <= |s| && TrimEnd(s) == s[..|TrimEnd(s)|]
    ensures AllWhitespace(s[|TrimEnd(s)|..])
    ensures TrimEnd(s) == [] || !IsWhitespace(TrimEnd(s)[|TrimEnd(s)| - 1])
    decreases |s|
  {
    if |s| > 0 && IsWhitespace(s[|s| - 1]) {
      var init := s[..|s| - 1];
      TrimEndDropsTrailingBlank(init);
      var k := |TrimEnd(s)|;
      forall i | 0 <= i < |s[k..]| ensures IsWhitespace(s[k..][i]) {
        if k + i < |s| - 1 {
          assert s[k..][i] == init[k..][i];
        }
      }
    }
  }

  /** A trimmed string neither starts nor ends with white space. */
  lemma TrimmedHasNoBlankEnds(s: string)
    ensures |Trim(s)| <= |s|
    ensures Trim(s) == [] || (!IsWhitespace(Trim(s)[0]) && !IsWhitespace(Trim(s)[|Trim(s)| - 1]))
  {
    var t := TrimStart(s);
    TrimStartDropsLeadingBlank(s);
    TrimEndDropsTrailingBlank(t);
    if Trim(s) != [] {
      assert Trim(s)[0] == t[0];
    }
  }

  /** Trim keeps the infix of `s` between its leading and trailing white-space runs. */
  lemma TrimIsInfix(s: string)
    ensures exists i, j :: 0 <= i <= j <= |s| && Trim(s) == s[i..j]
                           && AllWhitespace(s[..i]) && AllWhitespace(s[j..])
  {
    var t := TrimStart(s);
    TrimStartDropsLeadingBlank(s);
    TrimEndDropsTrailingBlank(t);
    var i := |s| - |t|;
    var j := i + |TrimEnd(t)|;
    assert Trim(s) == s[i..j];
    assert s[j..] == t[|TrimEnd(t)|..];
  }

  /** A string trims to nothing exactly when it is all white space. */
  lemma TrimEmptyIffBlank(s: string)
    ensures Trim(s) == [] <==> AllWhitespace(s)
  {
    var t := TrimStart(s);
    TrimStartDropsLeadingBlank(s);
    TrimEndDropsTrailingBlank(t);
    if t != [] {
      assert s[|s| - |t|] == t[0];
    } else {
      assert s[..|s|] == s;
    }
  }

  /** One schema check: no issue when it passes, one issue when it fails. */
  function Check(passes: bool, field: Field, message: string): (r: seq<Issue>)
    ensures passes <==> r == []
    ensures |r| <= 1
    ensures forall x :: x in r ==> x == Issue(field, message)
  {
    if passes then [] else [Issue(field, message)]
  }

  /**
   * The issues the schema reports for one field, in the order of its checks.
   * Every check of a field runs even when an earlier one failed; `name`,
   * `email` and `phone` are trimmed first, `tourType` is not.
   */
  function FieldIssues(d: FormData, isEmail: string -> bool, f: Field): (r: seq<Issue>)
    ensures forall x :: x in r ==> x.field == f
  {
    match f
    case Name =>
      Check(|Trim(d.name)| >= NameMin, Name, NameRequired)
        + Check(|Trim(d.name)| <= NameMax, Name, NameTooLong)
    case Email =>
      Check(isEmail(Trim(d.email)), Email, EmailInvalid)
        + Check(|Trim(d.email)| <= EmailMax, Email, EmailTooLong)
    case Phone =>
      Check(|Trim(d.phone)| >= PhoneMin, Phone, PhoneRequired)
        + Check(|Trim(d.phone)| <= PhoneMax, Phone, PhoneTooLong)
    case TourType =>
      Check(|d.tourType| >= TourTypeMin, TourType, TourRequired)
  }

  /** The conditions the booking schema places on the form data. */
  predicate SchemaAccepts(d: FormData, isEmail: string -> bool)
  {
    && NameMin <= |Trim(d.name)| <= NameMax
    && isEmail(Trim(d.email)) && |Trim(d.email)| <= EmailMax
    && PhoneMin <= |Trim(d.phone)| <= PhoneMax
    && |d.tourType| >= TourTypeMin
  }

  /** `safeParse` of the form data: all issues, field by field in schema order. */
  function Issues(d: FormData, isEmail: string -> bool): (r: seq<Issue>)
    ensures r == [] <==> SchemaAccepts(d, isEmail)
  {
    FieldIssues(d, isEmail, Name) + FieldIssues(d, isEmail, Email)
      + FieldIssues(d, isEmail, Phone) + FieldIssues(d, isEmail, TourType)
  }

  /** The error map the submit handler builds: issues in order, later ones overwrite. */
  function ErrorMap(issues: seq<Issue>): (m: map<Field, string>)
    ensures issues != [] ==> issues[|issues| - 1].field in m
    ensures issues != [] ==> m[issues[|issues| - 1].field] == issues[|issues| - 1].message
  {
    if issues == [] then map[]
    else
      var last := issues[|issues| - 1];
      ErrorMap(issues[..|issues| - 1])[last.field := last.message]
  }

  /** The error map has a key for exactly the fields some issue is about. */
  lemma {:induction false} ErrorMapKeys(issues: seq<Issue>, f: Field)
    ensures f in ErrorMap(issues) <==> exists k :: 0 <= k < |issues| && issues[k].field == f
  {
    if issues != [] {
      var init := issues[..|issues| - 1];
      ErrorMapKeys(init, f);
      if f in ErrorMap(init) {
        var k :| 0 <= k < |init| && init[k].field == f;
        assert issues[k] == init[k];
      }
      if k :| 0 <= k < |issues| - 1 && issues[k].field == f {
        assert init[k] == issues[k];
      }
    }
  }

  /** A field's message in the error map is that of its last issue. */
  lemma {:induction false} ErrorMapLastWins(issues: seq<Issue>, k: nat)
    requires k < |issues|
    requires forall j :: k < j < |issues| ==> issues[j].field != issues[k].field
    ensures issues[k].field in ErrorMap(issues)
    ensures ErrorMap(issues)[issues[k].field] == issues[k].message
  {
    if k < |issues| - 1 {
      ErrorMapLastWins(issues[..|issues| - 1], k);
    }
  }

  /** Appending issues about other fields leaves the entry of `f` as it was. */
  lemma {:induction false} ErrorMapSkipsOtherFields(a: seq<Issue>, c: seq<Issue>, f: Field)
    requires f in ErrorMap(a)
    requires forall x :: x in c ==> x.field != f
    ensures f in ErrorMap(a + c) && ErrorMap(a + c)[f] == ErrorMap(a)[f]
    decreases |c|
  {
    if c == [] {
      assert a + c == a;
    } else {
      var init := c[..|c| - 1];
      assert c[|c| - 1] in c;
      ErrorMapSkipsOtherFields(a, init, f);
      assert (a + c)[..|a + c| - 1] == a + init;
    }
  }

  /** After a failed submit, a field has an error exactly when one of its checks failed. */
  lemma ErrorKeysAreFailingFields(d: FormData, isEmail: string -> bool, f: Field)
    ensures f in ErrorMap(Issues(d, isEmail)) <==> FieldIssues(d, isEmail, f) != []
  {
    var s := Issues(d, isEmail);
    ErrorMapKeys(s, f);
    if FieldIssues(d, isEmail, f) != [] {
      FieldMessageIsLastIssue(d, isEmail, f);
    } else {
      forall k | 0 <= k < |s| ensures s[k].field != f {
        assert s[k] in s;
      }
    }
  }

  /** Two blocks without issues about `f` leave its entry as it was. */
  lemma ErrorMapSkipsTwoBlocks(a: seq<Issue>, b: seq<Issue>, c: seq<Issue>, f: Field)
    requires f in ErrorMap(a)
    requires forall x :: x in b ==> x.field != f
    requires forall x :: x in c ==> x.field != f
    ensures f in ErrorMap(a + b + c) && ErrorMap(a + b + c)[f] == ErrorMap(a)[f]
  {
    ErrorMapSkipsOtherFields(a, b, f);
    ErrorMapSkipsOtherFields(a + b, c, f);
  }

  /** Four blocks, one per field in schema order: the last name issue wins. */
  lemma NameBlockWins(n: seq<Issue>, e: seq<Issue>, p: seq<Issue>, t: seq<Issue>)
    requires n != []
    requires forall x :: x in e ==> x.field == Email
    requires forall x :: x in p ==> x.field == Phone
    requires forall x :: x in t ==> x.field == TourType
    requires n[|n| - 1].field == Name
    ensures Name in ErrorMap(n + e + p + t)
    ensures ErrorMap(n + e + p + t)[Name] == n[|n| - 1].message
  {
    ErrorMapSkipsOtherFields(n, e, Name);
    ErrorMapSkipsTwoBlocks(n + e, p, t, Name);
  }

  /** The last e-mail issue wins over the phone and tour blocks after it. */
  lemma EmailBlockWins(n: seq<Issue>, e: seq<Issue>, p: seq<Issue>, t: seq<Issue>)
    requires e != []
    requires forall x :: x in p ==> x.field == Phone
    requires forall x :: x in t ==> x.field == TourType
    requires e[|e| - 1].field == Email
    ensures Email in ErrorMap(n + e + p + t)
    ensures ErrorMap(n + e + p + t)[Email] == e[|e| - 1].message
  {
    assert (n + e)[|n + e| - 1] == e[|e| - 1];
    ErrorMapSkipsTwoBlocks(n + e, p, t, Email);
  }

  /** The last phone issue wins over the tour block after it. */
  lemma PhoneBlockWins(n: seq<Issue>, e: seq<Issue>, p: seq<Issue>, t: seq<Issue>)
    requires p != []
    requires forall x :: x in t ==> x.field == TourType
    requires p[|p| - 1].field == Phone
    ensures Phone in ErrorMap(n + e + p + t)
    ensures ErrorMap(n + e + p + t)[Phone] == p[|p| - 1].message
  {
    assert (n + e + p)[|n + e + p| - 1] == p[|p| - 1];
    ErrorMapSkipsOtherFields(n + e + p, t, Phone);
  }

  /** The last tour issue is the last issue of all, so it wins. */
  lemma TourBlockWins(n: seq<Issue>, e: seq<Issue>, p: seq<Issue>, t: seq<Issue>)
    requires t != []
    requires t[|t| - 1].field == TourType
    ensures TourType in ErrorMap(n + e + p + t)
    ensures ErrorMap(n + e + p + t)[TourType] == t[|t| - 1].message
  {
    assert (n + e + p + t)[|n + e + p + t| - 1] == t[|t| - 1];
  }

  /** The message shown for a failing field is that of its last failed check. */
  lemma FieldMessageIsLastIssue(d: FormData, isEmail: string -> bool, f: Field)
    requires FieldIssues(d, isEmail, f) != []
    ensures f in ErrorMap(Issues(d, isEmail))
    ensures ErrorMap(Issues(d, isEmail))[f] ==
            FieldIssues(d, isEmail, f)[|FieldIssues(d, isEmail, f)| - 1].message
  {
    var n, e, p, t :=
      FieldIssues(d, isEmail, Name), FieldIssues(d, isEmail, Email),
      FieldIssues(d, isEmail, Phone), FieldIssues(d, isEmail, TourType);
    var r := FieldIssues(d, isEmail, f);
    assert r[|r| - 1] in r;
    match f
    case Name => NameBlockWins(n, e, p, t);
    case Email => EmailBlockWins(n, e, p, t);
    case Phone => PhoneBlockWins(n, e, p, t);
    case TourType => TourBlockWins(n, e, p, t);
  }

  /** A malformed e-mail that is also too long shows the length message. */
  lemma LongMalformedEmailShowsLengthMessage(d: FormData, isEmail: string -> bool)
    requires !isEmail(Trim(d.email)) && |Trim(d.email)| > EmailMax
    ensures Email in ErrorMap(Issues(d, isEmail))
    ensures ErrorMap(Issues(d, isEmail))[Email] == EmailTooLong
  {
    FieldMessageIsLastIssue(d, isEmail, Email);
  }

  /** A name or phone of white space only is rejected as missing. */
  lemma BlankNameOrPhoneRejected(d: FormData, isEmail: string -> bool)
    requires AllWhitespace(d.name) || AllWhitespace(d.phone)
    ensures !SchemaAccepts(d, isEmail)
    ensures AllWhitespace(d.name) ==>
              Name in ErrorMap(Issues(d, isEmail)) && ErrorMap(Issues(d, isEmail))[Name] == NameRequired
    ensures AllWhitespace(d.phone) ==>
              Phone in ErrorMap(Issues(d, isEmail)) && ErrorMap(Issues(d, isEmail))[Phone] == PhoneRequired
  {
    TrimEmptyIffBlank(d.name);
    TrimEmptyIffBlank(d.phone);
    if AllWhitespace(d.name) {
      FieldMessageIsLastIssue(d, isEmail, Name);
    }
    if AllWhitespace(d.phone) {
      FieldMessageIsLastIssue(d, isEmail, Phone);
    }
  }

  /** The `forEach` over the parse issues that fills `fieldErrors`. */
  method CollectFieldErrors(issues: seq<Issue>) returns (fieldErrors: map<Field, string>)
    ensures fieldErrors == ErrorMap(issues)
  {
    fieldErrors := map[];
    for i := 0 to |issues|
      invariant fieldErrors == ErrorMap(issues[..i])
    {
      assert issues[..i + 1][..i] == issues[..i];
      fieldErrors := fieldErrors[issues[i].field := issues[i].message];
    }
    assert issues[..|issues|] == issues;
  }

  /** The modal's state: `formData`, `errors` and `isSubmitted`. */
  class BookingForm {
    var formData: FormData
    var errors: map<Field, string>
    var isSubmitted: bool

    /** The initial state: blank fields, no errors, not submitted. */
    constructor ()
      ensures formData == Blank && errors == map[] && !isSubmitted
    {
      formData := Blank;
      errors := map[];
      isSubmitted := false;
    }

    /** `handleSubmit`: validate; record the errors, or clear them and latch submitted. */
    method HandleSubmit(isEmail: string -> bool)
      modifies this
      ensures formData == old(formData)
      ensures SchemaAccepts(old(formData), isEmail) ==> errors == map[] && isSubmitted
      ensures !SchemaAccepts(old(formData), isEmail) ==>
                errors == ErrorMap(Issues(old(formData), isEmail)) && errors != map[]
                && isSubmitted == old(isSubmitted)
    {
      var result := Issues(formData, isEmail);
      if result != [] {
        var fieldErrors := CollectFieldErrors(result);
        ErrorMapKeys(result, result[0].field);
        errors := fieldErrors;
        return;
      }
      errors := map[];
      isSubmitted := true;
    }

    /** `handleClose`: back to the initial state, from any state. */
    method HandleClose()
      modifies this
      ensures formData == Blank && errors == map[] && !isSubmitted
    {
      formData := Blank;
      errors := map[];
      isSubmitted := false;
    }

    /** Typing in the name input. */
    method ChangeName(value: string)
      modifies this
      ensures formData == old(formData).(name := value)
      ensures errors == old(errors) && isSubmitted == old(isSubmitted)
    {
      formData := formData.(name := value);
    }

    /** Typing in the e-mail input. */
    method ChangeEmail(value: string)
      modifies this
      ensures formData == old(formData).(email := value)
      ensures errors == old(errors) && isSubmitted == old(isSubmitted)
    {
      formData := formData.(email := value);
    }

    /** Typing in the phone input. */
    method ChangePhone(value: string)
      modifies this
      ensures formData == old(formData).(phone := value)
      ensures errors == old(errors) && isSubmitted == old(isSubmitted)
    {
      formData := formData.(phone := value);
    }

    /** Choosing a tour's radio button. */
    method SelectTour(tour: Tour)
      modifies this
      ensures formData == old(formData).(tourType := TourId(tour))
      ensures errors == old(errors) && isSubmitted == old(isSubmitted)
    {
      formData := formData.(tourType := TourId(tour));
    }
  }
}
