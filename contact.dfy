/** The contact page (`ContactUs`): a three-field form edited one field at a
    time, a submit that hands the form to the e-mail relay while a
    "submitting" flag is raised, the submit button derived from that flag,
    and the scroll reveals registered for the page's blocks. */
module ContactForm {
  import opened Js

  /** The `name` attribute of each input. */
  datatype Field = FromName | EmailId | Message

  datatype FormData = FormData(fromName: string, emailId: string, message: string)

  const EmptyForm: FormData := FormData("", "", "")

  /** The value an input displays. */
  function Get(d: FormData, f: Field): string {
    match f
    case FromName => d.fromName
    case EmailId => d.emailId
    case Message => d.message
  }

  /** `{ ...prev, [name]: value }`: the named field takes the new value and
      the other two keep theirs. */
  function WithField(d: FormData, f: Field, v: string): (r: FormData)
    ensures Get(r, f) == v
    ensures forall g :: g != f ==> Get(r, g) == Get(d, g)
  {
    match f
    case FromName => d.(fromName := v)
    case EmailId => d.(emailId := v)
    case Message => d.(message := v)
  }

  /** Two edits of the same field: only the later one is visible. */
  lemma LastEditWins(d: FormData, f: Field, v: string, w: string)
    ensures WithField(WithField(d, f, v), f, w) == WithField(d, f, w)
  {
  }

  /** Edits of different fields do not interfere, in either order. */
  lemma EditsCommute(d: FormData, f: Field, g: Field, v: string, w: string)
    requires f != g
    ensures WithField(WithField(d, f, v), g, w) == WithField(WithField(d, g, w), f, v)
  {
  }

  /** Writing a field's own value back leaves the form as it was. */
  lemma EditWithSameValue(d: FormData, f: Field)
    ensures WithField(d, f, Get(d, f)) == d
  {
  }

  /** The relay's identifiers, sent with every submission. */
  const ServiceId: string := "service_d67fqdp"
  const TemplateId: string := "template_pu5s7ie"
  const PublicKey: string := "kRHXXlvor-vZq3rTy"

  /** One call of the relay: its identifiers and the form's current values. */
  datatype RelayRequest = RelayRequest(serviceId: string, templateId: string, publicKey: string, form: FormData)

  const SentAlert: string := "Message sent successfully!"
  const FailedAlert: string := "Failed to send message."

  /** The page's state as one value. */
  datatype ContactState = ContactState(formData: FormData, isSubmitting: bool)

  const InitialState: ContactState := ContactState(EmptyForm, false)

  /** The state once `handleSubmit` has run to its end: unchanged when the
      form is not mounted; otherwise the flag is lowered again, and the
      fields are cleared on a successful send and kept on a failed one. */
  function AfterSubmit(s: ContactState, formMounted: bool, sendSucceeds: bool): (r: ContactState)
    ensures !formMounted ==> r == s
    ensures formMounted ==> !r.isSubmitting
    ensures formMounted && sendSucceeds ==> forall f :: Get(r.formData, f) == ""
    ensures formMounted && !sendSucceeds ==> r.formData == s.formData
  {
    if !formMounted then s
    else if sendSucceeds then ContactState(EmptyForm, false)
    else ContactState(s.formData, false)
  }

  /** A successful submission puts the page back into its initial state. */
  lemma SuccessResetsPage(s: ContactState)
    ensures AfterSubmit(s, true, true) == InitialState
  {
  }

  /** A failed submission can be retried with the same input: a second
      attempt sends exactly what the first one did. */
  lemma FailureKeepsInputForRetry(s: ContactState)
    ensures AfterSubmit(s, true, false).formData == s.formData
    ensures AfterSubmit(AfterSubmit(s, true, false), true, false) == AfterSubmit(s, true, false)
  {
  }

  datatype Button = Button(disabled: bool, text: string)

  /** The submit button: disabled and reading "Sending..." exactly while a
      submission is in progress, "Send Message" otherwise. */
  function SubmitButton(isSubmitting: bool): (b: Button)
    ensures b.disabled <==> isSubmitting
    ensures b.text == "Sending..." <==> isSubmitting
    ensures !isSubmitting ==> b.text == "Send Message"
  {
    if isSubmitting then Button(true, "Sending...") else Button(false, "Send Message")
  }

  /** Whatever the relay answers, once `handleSubmit` is over the button is
      enabled again. */
  lemma ButtonEnabledAfterSubmit(s: ContactState, sendSucceeds: bool)
    ensures SubmitButton(AfterSubmit(s, true, sendSucceeds).isSubmitting) == Button(false, "Send Message")
  {
  }

  /** The page blocks that carry a scroll reveal. */
  datatype Block = Title | ContactInfo | Form | Social

  /** Every mounted block gets one reveal, in the page's order; a block whose
      ref is empty is skipped. */
  function ContactReveals(title: bool, contactInfo: bool, form: bool, social: bool): (rs: seq<Block>)
    ensures Title in rs <==> title
    ensures ContactInfo in rs <==> contactInfo
    ensures Form in rs <==> form
    ensures Social in rs <==> social
    ensures |rs| == (if title then 1 else 0) + (if contactInfo then 1 else 0)
                  + (if form then 1 else 0) + (if social then 1 else 0)
  {
    (if title then [Title] else []) + (if contactInfo then [ContactInfo] else [])
      + (if form then [Form] else []) + (if social then [Social] else [])
  }

  /** The form's state. */
  class ContactUs {
    var formData: FormData
    var isSubmitting: bool

    function State(): ContactState
      reads this
    {
      ContactState(formData, isSubmitting)
    }

    constructor ()
      ensures State() == InitialState
    {
      formData := EmptyForm;
      isSubmitting := false;
    }

    /** `handleInputChange`: one keystroke in one input. */
    method HandleInputChange(f: Field, v: string)
      modifies this
      ensures formData == WithField(old(formData), f, v)
      ensures isSubmitting == old(isSubmitting)
    {
      formData := WithField(formData, f, v);
    }

    /** `handleSubmit`. The relay's answer is the parameter `sendSucceeds`.
        Returns the request handed to the relay (none when the form is not
        mounted), the flag as it stood while the relay was working, and the
        alert shown. */
    method HandleSubmit(formMounted: bool, sendSucceeds: bool)
      returns (request: Option<RelayRequest>, submittingDuringSend: bool, alert: Option<string>)
      modifies this
      ensures State() == AfterSubmit(old(State()), formMounted, sendSucceeds)
      ensures !formMounted ==> request == None && alert == None
      ensures formMounted ==> request == Some(RelayRequest(ServiceId, TemplateId, PublicKey, old(formData)))
      ensures formMounted ==> submittingDuringSend
      ensures formMounted ==> alert == Some(if sendSucceeds then SentAlert else FailedAlert)
    {
      request, submittingDuringSend, alert := None, isSubmitting, None;
      if !formMounted {
        return;
      }
      isSubmitting := true;
      request := Some(RelayRequest(ServiceId, TemplateId, PublicKey, formData));
      submittingDuringSend := isSubmitting;
      if sendSucceeds {
        alert := Some(SentAlert);
        formData := EmptyForm;
      } else {
        alert := Some(FailedAlert);
      }
      isSubmitting := false;
    }

    /** The submit button as rendered now. */
    method RenderButton() returns (b: Button)
      ensures b == SubmitButton(isSubmitting)
      ensures b.disabled <==> State().isSubmitting
    {
      b := SubmitButton(isSubmitting);
    }
  }
}
