/** The contact form (src/components/contacts/ContactForm.tsx): field validation, including the
    e-mail shape, and the submit status machine. The POST to the server is split into the moment
    it is sent and the moment its answer arrives. */
module ContactForm {
  import opened Wrappers
  import opened Text

  datatype FormData = FormData(name: string, email: string, subject: string, message: string)

  /** Which message a field shows: the "required" text or the "invalid e-mail" text. */
  datatype ErrorKind = Required | InvalidEmail

  /** `FormErrors`: only name, e-mail and message can carry an error; the subject cannot. */
  datatype FormErrors = FormErrors(name: Option<ErrorKind>, email: Option<ErrorKind>, message: Option<ErrorKind>)

  datatype Status = Idle | Loading | Success | Error

  const NoErrors: FormErrors := FormErrors(None, None, None)
  const EmptyForm: FormData := FormData("", "", "", "")

  /** `Object.keys(errs).length > 0`. */
  predicate HasErrors(errs: FormErrors) {
    errs.name.Some? || errs.email.Some? || errs.message.Some?
  }

  /** A run of characters that is neither whitespace nor '@' (the class `[^\s@]`). */
  predicate Plain(s: string) {
    forall k :: 0 <= k < |s| ==> !IsSpace(s[k]) && s[k] != '@'
  }

  /** No whitespace character (`\s`) anywhere. */
  predicate NoSpace(s: string) {
    forall k :: 0 <= k < |s| ==> !IsSpace(s[k])
  }

  /** The shape A@B.C, with A, B and C non-empty runs of plain characters: what the pattern
      `^[^\s@]+@[^\s@]+\.[^\s@]+$` accepts. */
  ghost predicate EmailShape(e: string) {
    exists i, j :: 0 < i && i + 1 < j && j + 1 < |e| && e[i] == '@' && e[j] == '.'
      && Plain(e[..i]) && Plain(e[i + 1..j]) && Plain(e[j + 1..])
  }

  /** The check as the form can run it: no whitespace anywhere, exactly one '@' with something
      before it, and a '.' strictly inside the part after it. */
  predicate ValidEmail(e: string) {
    var parts := Split(e, "@");
    NoSpace(e)
    && |parts| == 2 && parts[0] != ""
    && exists k :: 0 < k < |parts[1]| - 1 && parts[1][k] == '.'
  }

  /** The error for the e-mail field: required when blank, invalid when it lacks the shape. */
  function EmailError(email: string): (r: Option<ErrorKind>)
    ensures r == None <==> !Blank(email) && ValidEmail(email)
  {
    if Blank(email) then Some(Required)
    else if !ValidEmail(email) then Some(InvalidEmail)
    else None
  }

  /** The form's state. */
  class Form {
    var data: FormData
    var errors: FormErrors
    var status: Status

    constructor()
      ensures data == EmptyForm && errors == NoErrors && status == Idle
    {
      data := EmptyForm;
      errors := NoErrors;
      status := Idle;
    }

    /** `validate`: fills the error record one field after another. */
    method Validate() returns (errs: FormErrors)
      ensures errs.name == (if Blank(data.name) then Some(Required) else None)
      ensures errs.email == (if Blank(data.email) then Some(Required)
                             else if !EmailShape(data.email) then Some(InvalidEmail) else None)
      ensures errs.message == (if Blank(data.message) then Some(Required) else None)
    {
      errs := NoErrors;
      if Blank(data.name) {
        errs := errs.(name := Some(Required));
      }
      if Blank(data.email) {
        errs := errs.(email := Some(Required));
      } else if !ValidEmail(data.email) {
        EmailCheckMatchesShape(data.email);
        errs := errs.(email := Some(InvalidEmail));
      } else {
        EmailCheckMatchesShape(data.email);
      }
      if Blank(data.message) {
        errs := errs.(message := Some(Required));
      }
    }

    /** `handleSubmit` up to the request: with errors, they are stored and nothing is sent; else
        the errors are cleared, the status becomes loading and the form data is sent. */
    method Submit() returns (sent: Option<FormData>)
      modifies this`errors, this`status
      ensures var errs := Errors(old(data));
        && (HasErrors(errs) ==> sent == None && errors == errs && status == old(status))
        && (!HasErrors(errs) ==> sent == Some(data) && errors == NoErrors && status == Loading)
      ensures data == old(data)
    {
      var errs := Validate();
      if HasErrors(errs) {
        errors := errs;
        return None;
      }
      errors := NoErrors;
      status := Loading;
      return Some(data);
    }

    /** The request's answer: an OK response gives success; a non-OK one or a failure gives error. */
    method Complete(ok: bool)
      modifies this`status
      ensures status == (if ok then Success else Error)
    {
      status := if ok then Success else Error;
    }

    /** `reset`: every field empty, no errors, idle. */
    method Reset()
      modifies this
      ensures data == EmptyForm && errors == NoErrors && status == Idle
    {
      data := EmptyForm;
      errors := NoErrors;
      status := Idle;
    }

    method EditName(value: string)
      modifies this`data
      ensures data == old(data).(name := value)
    {
      data := data.(name := value);
    }

    method EditEmail(value: string)
      modifies this`data
      ensures data == old(data).(email := value)
    {
      data := data.(email := value);
    }

    method EditMessage(value: string)
      modifies this`data
      ensures data == old(data).(message := value)
    {
      data := data.(message := value);
    }

    /** Picking a subject in the subject menu. */
    method ChooseSubject(value: string)
      modifies this`data
      ensures data == old(data).(subject := value)
    {
      data := data.(subject := value);
    }
  }

  /** The errors `Validate` finds for some form data. */
  ghost function Errors(data: FormData): FormErrors {
    FormErrors(
      if Blank(data.name) then Some(Required) else None,
      if Blank(data.email) then Some(Required) else if !EmailShape(data.email) then Some(InvalidEmail) else None,
      if Blank(data.message) then Some(Required) else None)
  }

  // ---------------------------------------------------------------------------------------------
  // Lemmas

  /** A plain slice of a plain string. */
  lemma PlainSlice(s: string, a: nat, b: nat)
    requires Plain(s) && a <= b <= |s|
    ensures Plain(s[a..b])
  {
    forall k | 0 <= k < b - a ensures !IsSpace(s[a..b][k]) && s[a..b][k] != '@' {
      assert s[a..b][k] == s[a + k];
    }
  }

  /** The e-mail check the form runs accepts exactly the A@B.C shape. */
  lemma EmailCheckMatchesShape(e: string)
    ensures ValidEmail(e) <==> EmailShape(e)
  {
    if EmailShape(e) {
      ShapePassesCheck(e);
    }
    if ValidEmail(e) {
      CheckGivesShape(e);
    }
  }

  /** Plain runs concatenate to a plain run. */
  lemma PlainConcat(a: string, b: string)
    requires Plain(a) && Plain(b)
    ensures Plain(a + b)
  {
    forall k | 0 <= k < |a + b| ensures !IsSpace((a + b)[k]) && (a + b)[k] != '@' {
      if k >= |a| {
        assert (a + b)[k] == b[k - |a|];
      }
    }
  }

  lemma NoSpaceConcat(a: string, b: string)
    requires NoSpace(a) && NoSpace(b)
    ensures NoSpace(a + b)
  {
    forall k | 0 <= k < |a + b| ensures !IsSpace((a + b)[k]) {
      if k >= |a| {
        assert (a + b)[k] == b[k - |a|];
      }
    }
  }

  /** Every A@B.C string passes the check. */
  lemma ShapePassesCheck(e: string)
    requires EmailShape(e)
    ensures ValidEmail(e)
  {
    var i, j :| 0 < i && i + 1 < j && j + 1 < |e| && e[i] == '@' && e[j] == '.'
      && Plain(e[..i]) && Plain(e[i + 1..j]) && Plain(e[j + 1..]);
    CutTwice(e, i, j);
    PartsPassCheck(e[..i], e[i + 1..j], e[j + 1..]);
  }

  /** A string is its three pieces around two cut points. */
  lemma CutTwice(e: string, i: nat, j: nat)
    requires i < j < |e|
    ensures e == e[..i] + [e[i]] + (e[i + 1..j] + [e[j]] + e[j + 1..])
  {
    assert e[i + 1..] == e[i + 1..j] + [e[j]] + e[j + 1..];
    assert e == e[..i] + [e[i]] + e[i + 1..];
  }

  /** A@B.C assembled from three non-empty plain runs passes the check. */
  lemma PartsPassCheck(local: string, host: string, top: string)
    requires Plain(local) && Plain(host) && Plain(top)
    requires local != [] && host != [] && top != []
    ensures ValidEmail(local + "@" + (host + "." + top))
  {
    var domain := host + "." + top;
    var e := local + "@" + domain;
    PlainConcat(host, ".");
    PlainConcat(host + ".", top);
    assert '@' !in local by {
      forall k | 0 <= k < |local| ensures local[k] != '@' { }
    }
    assert '@' !in domain by {
      forall k | 0 <= k < |domain| ensures domain[k] != '@' { }
    }
    ContainsChar(domain, '@');
    SplitAfterPart(local, domain, "@");
    SplitWithoutSeparator(domain, "@");
    assert Split(e, "@") == [local, domain];
    assert domain[|host|] == '.';
    var parts := Split(e, "@");
    assert 0 < |host| < |parts[1]| - 1 && parts[1][|host|] == '.';
    NoSpaceConcat(local, "@");
    NoSpaceConcat(local + "@", domain);
  }

  /** Every string that passes the check has the A@B.C shape. */
  lemma CheckGivesShape(e: string)
    requires ValidEmail(e)
    ensures EmailShape(e)
  {
    var parts := Split(e, "@");
    var local, domain := parts[0], parts[1];
    assert e == local + "@" + domain by {
      JoinSplit(e, "@");
      assert parts[1..] == [domain];
    }
    assert '@' !in local && '@' !in domain by {
      SplitPartsAvoidSeparator(e, "@");
      assert local in parts && domain in parts;
      ContainsChar(local, '@');
      ContainsChar(domain, '@');
    }
    var k :| 0 < k < |domain| - 1 && domain[k] == '.';
    NoSpaceParts(local, domain, e);
    ShapeFromParts(local, domain, k);
  }

  /** The two sides of a whitespace-free `local@domain` are whitespace-free. */
  lemma NoSpaceParts(local: string, domain: string, e: string)
    requires e == local + "@" + domain && NoSpace(e)
    ensures NoSpace(local) && NoSpace(domain)
  {
    forall m | 0 <= m < |local| ensures !IsSpace(local[m]) {
      assert local[m] == e[m];
    }
    forall m | 0 <= m < |domain| ensures !IsSpace(domain[m]) {
      assert domain[m] == e[|local| + 1 + m];
    }
  }

  /** `local@domain`, with a '.' strictly inside the domain and no whitespace or '@' in either
      side, has the A@B.C shape. */
  lemma ShapeFromParts(local: string, domain: string, k: nat)
    requires NoSpace(local) && NoSpace(domain) && '@' !in local && '@' !in domain
    requires local != [] && 0 < k < |domain| - 1 && domain[k] == '.'
    ensures EmailShape(local + "@" + domain)
  {
    var e := local + "@" + domain;
    var i, j := |local|, |local| + 1 + k;
    assert Plain(local) && Plain(domain);
    assert e[i] == '@' && e[j] == '.';
    assert e[..i] == local;
    assert e[i + 1..j] == domain[..k];
    assert e[j + 1..] == domain[k + 1..];
    PlainSlice(domain, 0, k);
    PlainSlice(domain, k + 1, |domain|);
  }

  /** Validation never blames the subject, and a form passes exactly when name and message have
      text and the e-mail has the A@B.C shape. */
  lemma ValidIff(data: FormData)
    ensures !HasErrors(Errors(data)) <==> !Blank(data.name) && !Blank(data.message) && !Blank(data.email) && EmailShape(data.email)
    ensures !HasErrors(Errors(data)) ==> Errors(data.(subject := "")) == Errors(data)
  {
  }
}
