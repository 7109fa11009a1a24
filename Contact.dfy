/** The contact form of src/pages/Contact.jsx: four controlled fields, a change
    handler that writes the edited field, and a submit handler that cancels the
    page load, logs the form, thanks the visitor and clears the form. */
module Contact {

  /** The `name` attributes of the form's four controls, in page order. */
  const Fields: seq<string> := ["name", "email", "subject", "message"]

  const ThankYou: string := "Thank you for your message! I will get back to you soon."

  /** The form state at first render and after a submission: every field empty. */
  function EmptyForm(): (r: map<string, string>)
    ensures r.Keys == set f | f in Fields
    ensures forall f :: f in r ==> r[f] == ""
  {
    map["name" := "", "email" := "", "subject" := "", "message" := ""]
  }

  /** The browser's check of the `required` attributes: every field holds some text. */
  predicate Complete(form: map<string, string>) {
    forall f :: f in Fields ==> f in form && form[f] != ""
  }

  class ContactPage {
    var formData: map<string, string>
    /** What `console.log` received, one entry per submission. */
    var log: seq<map<string, string>>
    /** What `alert` showed, one entry per submission. */
    var alerts: seq<string>

    constructor ()
      ensures formData == EmptyForm() && log == [] && alerts == []
    {
      formData := EmptyForm();
      log := [];
      alerts := [];
    }

    /** `handleChange` for the control named `name` now holding `value`. */
    method HandleChange(name: string, value: string)
      modifies this
      ensures formData == old(formData)[name := value]
      ensures log == old(log) && alerts == old(alerts)
    {
      formData := formData[name := value];
    }

    /** `handleSubmit`: the default page load is cancelled, the form is logged,
        the thank-you alert is shown and every field is cleared. */
    method HandleSubmit() returns (defaultPrevented: bool)
      modifies this
      ensures defaultPrevented
      ensures log == old(log) + [old(formData)]
      ensures alerts == old(alerts) + [ThankYou]
      ensures formData == EmptyForm()
    {
      defaultPrevented := true;
      log := log + [formData];
      alerts := alerts + [ThankYou];
      formData := EmptyForm();
    }

    /** The submit button: the browser runs the handler only when every required field is filled. */
    method SubmitClicked() returns (submitted: bool)
      modifies this
      ensures submitted == Complete(old(formData))
      ensures submitted ==> log == old(log) + [old(formData)] && alerts == old(alerts) + [ThankYou] && formData == EmptyForm()
      ensures !submitted ==> log == old(log) && alerts == old(alerts) && formData == old(formData)
    {
      submitted := Complete(formData);
      if submitted {
        var _ := HandleSubmit();
      }
    }
  }

  /** Editing one of the form's fields keeps the same four fields and leaves the other three alone. */
  lemma ChangeTouchesOneField(form: map<string, string>, name: string, value: string)
    requires form.Keys == set f | f in Fields
    requires name in Fields
    ensures form[name := value].Keys == form.Keys
    ensures form[name := value][name] == value
    ensures forall f :: f in Fields && f != name ==> form[name := value][f] == form[f]
  {
  }

  /** The cleared form never passes the `required` check, so a second click right
      after a submission logs nothing. */
  lemma EmptyFormIncomplete()
    ensures !Complete(EmptyForm())
  {
    assert "name" in Fields;
  }

  /** Filling every field with some text from the cleared form makes it submittable. */
  lemma FilledFormComplete(name: string, email: string, subject: string, message: string)
    requires name != "" && email != "" && subject != "" && message != ""
    ensures Complete(EmptyForm()["name" := name]["email" := email]["subject" := subject]["message" := message])
  {
  }

  /** A visit: typing into all four fields and submitting logs exactly what was typed,
      and the form is empty again. */
  method VisitAndSubmit(name: string, email: string, subject: string, message: string)
    returns (first: bool, second: bool, log: seq<map<string, string>>, alerts: seq<string>)
    requires name != "" && email != "" && subject != "" && message != ""
    ensures first && !second && |log| == 1 && "email" in log[0] && log[0]["email"] == email && alerts == [ThankYou]
  {
    var page := new ContactPage();
    page.HandleChange("name", name);
    page.HandleChange("email", email);
    page.HandleChange("subject", subject);
    page.HandleChange("message", message);
    FilledFormComplete(name, email, subject, message);
    first := page.SubmitClicked();
    EmptyFormIncomplete();
    second := page.SubmitClicked();
    log, alerts := page.log, page.alerts;
  }
}
