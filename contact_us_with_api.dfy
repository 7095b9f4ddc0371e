/** The contact page that submits through the API: the ordered validation
    chain, the e-mail pattern `^[^\s@]+@[^\s@]+\.[^\s@]+$`, and the
    `submitStatus`/`form` transitions of a submit. */
module ContactUsWithApi {
  import opened Wrappers
  import opened Text
  import opened Forms

  const NameMinLength: nat := 3
  const NameMaxLength: nat := 100
  const MessageMinLength: nat := 10
  const MessageMaxLength: nat := 2000

  /** Which check of the chain turned the submit down. */
  datatype Rejection =
    | NameMissing | NameLength | EmailMissing | EmailFormat | MessageMissing | MessageLength

  /** What the submit collaborator receives. */
  datatype Payload = Payload(name: string, email: string, message: string)

  datatype Checked = Accepted(payload: Payload) | Rejected(reason: Rejection)

  /** `submitStatus`: `null`, 'success' or 'error'. */
  datatype SubmitStatus = Idle | Success | Error

  /** The signed-in user from the authentication context; a missing name or
      e-mail is "". */
  datatype Account = Account(name: string, email: string)

  // ---------------------------------------------------------------------
  // The e-mail pattern

  /** The character class `[^\s@]`. */
  predicate IsPlain(c: char) {
    !IsSpace(c) && c != '@'
  }

  predicate AllPlain(s: string) {
    forall k :: 0 <= k < |s| ==> IsPlain(s[k])
  }

  /** The pattern read as a grammar: `s` splits at an '@' (index `at`) and a
      later '.' (index `dot`) into three non-empty runs of `[^\s@]`. */
  predicate SplitsAsEmail(s: string, at: int, dot: int) {
    0 < at && at + 1 < dot && dot + 1 < |s| &&
    s[at] == '@' && s[dot] == '.' &&
    AllPlain(s[..at]) && AllPlain(s[at + 1..dot]) && AllPlain(s[dot + 1..])
  }

  ghost predicate MatchesEmailPattern(s: string) {
    exists at, dot :: SplitsAsEmail(s, at, dot)
  }

  /** The index of the first `c` in `s`. */
  function IndexOf(s: string, c: char): (r: Option<nat>)
    ensures r.None? ==> forall k :: 0 <= k < |s| ==> s[k] != c
    ensures r.Some? ==> r.value < |s| && s[r.value] == c &&
                        forall k :: 0 <= k < r.value ==> s[k] != c
  {
    if s == [] then None
    else if s[0] == c then Some(0)
    else
      match IndexOf(s[1..], c)
      case None => None
      case Some(k) => Some(k + 1)
  }

  /** The part after '@': no '@', no white space, and a '.' that is neither
      its first nor its last character. */
  predicate IsDomain(d: string) {
    AllPlain(d) && exists k :: 0 < k < |d| - 1 && d[k] == '.'
  }

  /** `emailRegex.test(s)`: a non-empty local part without '@' or white
      space, an '@', and a domain. */
  predicate IsEmailShaped(s: string) {
    match IndexOf(s, '@')
    case None => false
    case Some(at) => 0 < at && AllPlain(s[..at]) && IsDomain(s[at + 1..])
  }

  /** The decision procedure accepts exactly what the pattern matches. */
  lemma IsEmailShapedIffPattern(s: string)
    ensures IsEmailShaped(s) <==> MatchesEmailPattern(s)
  {
    if IsEmailShaped(s) {
      var at := IndexOf(s, '@').value;
      var d := s[at + 1..];
      var k :| 0 < k < |d| - 1 && d[k] == '.';
      var dot := at + 1 + k;
      assert s[at + 1..dot] == d[..k];
      assert s[dot + 1..] == d[k + 1..];
      assert SplitsAsEmail(s, at, dot);
    }
    if MatchesEmailPattern(s) {
      var at, dot :| SplitsAsEmail(s, at, dot);
      assert forall k :: 0 <= k < at ==> s[k] == s[..at][k];
      assert IndexOf(s, '@') == Some(at);
      var d := s[at + 1..];
      forall k | 0 <= k < |d| ensures IsPlain(d[k]) {
        if at + 1 + k < dot {
          assert d[k] == s[at + 1..dot][k];
        } else if at + 1 + k > dot {
          assert d[k] == s[dot + 1..][k - (dot - at)];
        }
      }
      assert d[dot - at - 1] == '.';
    }
  }

  /** The pattern is tested on the untrimmed e-mail, so an e-mail with
      leading or trailing white space is rejected; an accepted one has
      nothing to trim. */
  lemma EmailShapedIsTrimmed(s: string)
    ensures IsEmailShaped(s) ==> s != [] && !IsSpace(s[0]) && !IsSpace(s[|s| - 1])
    ensures IsEmailShaped(s) ==> Trim(s) == s
  {
    if IsEmailShaped(s) {
      var at := IndexOf(s, '@').value;
      assert s[0] == s[..at][0];
      assert s[|s| - 1] == s[at + 1..][|s| - at - 2];
    }
  }

  // ---------------------------------------------------------------------
  // The validation chain

  /** The checks of `handleSubmit`, in order, on the trimmed fields (the
      pattern on the e-mail as typed); an accepted form yields the trimmed
      payload. */
  function Validate(f: ContactForm): (c: Checked)
    ensures c.Accepted? <==>
      NameMinLength <= |Trim(f.name)| <= NameMaxLength &&
      IsEmailShaped(f.email) &&
      MessageMinLength <= |Trim(f.message)| <= MessageMaxLength
    ensures c.Accepted? ==>
      c.payload == Payload(Trim(f.name), Trim(f.email), Trim(f.message)) && c.payload.email == f.email
    ensures c == Rejected(NameMissing) <==> IsBlank(f.name)
    ensures c == Rejected(NameLength) <==>
      !IsBlank(f.name) && !(NameMinLength <= |Trim(f.name)| <= NameMaxLength)
    ensures c == Rejected(EmailMissing) ==> IsBlank(f.email)
    ensures c == Rejected(MessageMissing) ==> IsBlank(f.message)
  {
    TrimEmptyIffBlank(f.name);
    TrimEmptyIffBlank(f.email);
    TrimEmptyIffBlank(f.message);
    var name, email, message := Trim(f.name), Trim(f.email), Trim(f.message);
    if name == "" then Rejected(NameMissing)
    else if |name| < NameMinLength || |name| > NameMaxLength then Rejected(NameLength)
    else if email == "" then Rejected(EmailMissing)
    else if !IsEmailShaped(f.email) then Rejected(EmailFormat)
    else if message == "" then Rejected(MessageMissing)
    else if |message| < MessageMinLength || |message| > MessageMaxLength then Rejected(MessageLength)
    else
      EmailShapedIsTrimmed(f.email);
      Accepted(Payload(name, email, message))
  }

  // ---------------------------------------------------------------------
  // The component's state

  class ContactPage {
    var form: ContactForm
    var submitStatus: SubmitStatus

    constructor ()
      ensures form == ContactForm("", "", "") && submitStatus == Idle
    {
      form := ContactForm("", "", "");
      submitStatus := Idle;
    }

    /** The effect that copies the signed-in user into the form; the message
        is kept. */
    method Prefill(user: Option<Account>)
      modifies this`form
      ensures user.None? ==> form == old(form)
      ensures user.Some? ==>
        form == ContactForm(user.value.name, user.value.email, old(form).message)
    {
      if user.Some? {
        form := form.(name := user.value.name, email := user.value.email);
      }
    }

    /** `handleChange`: only the named field takes the new value. */
    method HandleChange(field: Field, value: string)
      modifies this`form
      ensures form == WithField(old(form), field, value)
    {
      form := WithField(form, field, value);
    }

    /** `handleSubmit`. `delivered` says whether the submit collaborator's
        promise resolves; `sent` is what it was called with, `None` when the
        chain returned before calling it. */
    method HandleSubmit(delivered: bool) returns (sent: Option<Payload>)
      modifies this`form, this`submitStatus
      ensures Validate(old(form)).Rejected? ==>
        sent == None && submitStatus == Error && form == old(form)
      ensures Validate(old(form)).Accepted? ==>
        sent == Some(Validate(old(form)).payload)
      ensures Validate(old(form)).Accepted? && delivered ==>
        submitStatus == Success && form == old(form).(message := "")
      ensures Validate(old(form)).Accepted? && !delivered ==>
        submitStatus == Error && form == old(form)
    {
      submitStatus := Idle;
      sent := None;
      var name := Trim(form.name);
      if name == "" {
        submitStatus := Error;
        return;
      }
      if |name| < NameMinLength || |name| > NameMaxLength {
        submitStatus := Error;
        return;
      }
      if Trim(form.email) == "" {
        submitStatus := Error;
        return;
      }
      if !IsEmailShaped(form.email) {
        submitStatus := Error;
        return;
      }
      var message := Trim(form.message);
      if message == "" {
        submitStatus := Error;
        return;
      }
      if |message| < MessageMinLength || |message| > MessageMaxLength {
        submitStatus := Error;
        return;
      }
      sent := Some(Payload(name, Trim(form.email), message));
      if delivered {
        submitStatus := Success;
        form := form.(message := "");
      } else {
        submitStatus := Error;
      }
    }
  }
}
