/** The plain contact page: a fixed name and e-mail, an editable message,
    and a submit that only requires a non-blank message. */
module ContactUs {
  import opened Wrappers
  import opened Text
  import opened Forms

  const FixedName: string := "Kanishka Deo"
  const FixedEmail: string := "kanishka@example.com"

  /** The form after a submit: `None` when the message is blank (the page
      alerts and changes nothing), otherwise the form with the message
      cleared and name and e-mail as they were. */
  function Submitted(f: ContactForm): (r: Option<ContactForm>)
    ensures r.None? <==> IsBlank(f.message)
    ensures r.Some? ==> r.value == ContactForm(f.name, f.email, "")
  {
    TrimEmptyIffBlank(f.message);
    if Trim(f.message) == "" then None else Some(f.(message := ""))
  }

  class SimpleContactPage {
    var form: ContactForm

    /** Name and e-mail are the fixed values; the page has no input that
        changes them. */
    ghost predicate Valid()
      reads this
    {
      form.name == FixedName && form.email == FixedEmail
    }

    constructor ()
      ensures Valid() && form.message == ""
    {
      form := ContactForm(FixedName, FixedEmail, "");
    }

    /** The message textarea's `onChange`, the only editable field. */
    method EditMessage(value: string)
      requires Valid()
      modifies this`form
      ensures Valid() && form == old(form).(message := value)
    {
      form := form.(message := value);
    }

    /** `handleSubmit`: `accepted` is false when the blank-message guard
        returns early. */
    method HandleSubmit() returns (accepted: bool)
      requires Valid()
      modifies this`form
      ensures Valid()
      ensures accepted <==> !IsBlank(old(form).message)
      ensures !accepted ==> form == old(form)
      ensures accepted ==> form == old(form).(message := "")
      ensures Submitted(old(form)) == if accepted then Some(form) else None
    {
      TrimEmptyIffBlank(form.message);
      if Trim(form.message) == "" {
        accepted := false;
        return;
      }
      accepted := true;
      form := form.(message := "");
    }
  }
}
