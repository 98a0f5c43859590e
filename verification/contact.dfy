/** The contact page's two forms. Each posts its four fields plus a `type`
    discriminant, empties itself on success, keeps its contents on failure,
    and has its own loading flag. */
module Contact {
  import opened Common
  import opened Server

  datatype Form = Form(name: string, email: string, subject: string, message: string)

  const EmptyForm := Form("", "", "", "")

  /** The JSON body `{...form, type}`. */
  datatype Payload = Payload(name: string, email: string, subject: string, message: string, kind: string)

  datatype Page = Page(enquiryForm: Form, feedbackForm: Form, loadingEnquiry: bool, loadingFeedback: bool)

  const Blank := Page(EmptyForm, EmptyForm, false, false)

  function FormOf(p: Page, kind: MessageKind): Form
  {
    match kind
    case Enquiry => p.enquiryForm
    case Feedback => p.feedbackForm
  }

  function LoadingOf(p: Page, kind: MessageKind): bool
  {
    match kind
    case Enquiry => p.loadingEnquiry
    case Feedback => p.loadingFeedback
  }

  function PayloadOf(f: Form, kind: MessageKind): (body: Payload)
    ensures body.kind == KindName(kind)
  {
    Payload(f.name, f.email, f.subject, f.message, KindName(kind))
  }

  /** The four submitted fields, as the server's models name them. */
  function SubmissionOf(body: Payload): Submission
  {
    Submission(body.name, body.email, body.subject, body.message)
  }

  /** The kind a payload's `type` names. */
  function KindOf(body: Payload): Option<MessageKind>
  {
    if body.kind == KindName(Enquiry) then Some(Enquiry)
    else if body.kind == KindName(Feedback) then Some(Feedback)
    else None
  }

  /** A payload tells which form sent it and carries that form's fields. */
  lemma PayloadRoundTrip(f: Form, kind: MessageKind)
    ensures KindOf(PayloadOf(f, kind)) == Some(kind)
    ensures SubmissionOf(PayloadOf(f, kind)) == Submission(f.name, f.email, f.subject, f.message)
  {
    KindNamesDistinct(Enquiry, Feedback);
  }

  /** `handleEnquirySubmit` and `handleFeedbackSubmit`: the payload that is
      posted and the page afterwards, given whether the post succeeded. */
  function Submit(p: Page, kind: MessageKind, posted: bool): (r: (Payload, Page))
    ensures KindOf(r.0) == Some(kind)
    ensures SubmissionOf(r.0) ==
      var f := FormOf(p, kind); Submission(f.name, f.email, f.subject, f.message)
    ensures FormOf(r.1, kind) == (if posted then EmptyForm else FormOf(p, kind))
    ensures !LoadingOf(r.1, kind)
    ensures forall other :: other != kind ==>
              FormOf(r.1, other) == FormOf(p, other) && LoadingOf(r.1, other) == LoadingOf(p, other)
  {
    PayloadRoundTrip(FormOf(p, kind), kind);
    var body := PayloadOf(FormOf(p, kind), kind);
    var form := if posted then EmptyForm else FormOf(p, kind);
    match kind
    case Enquiry => (body, p.(enquiryForm := form, loadingEnquiry := false))
    case Feedback => (body, p.(feedbackForm := form, loadingFeedback := false))
  }

  /** The two forms do not interfere: submitting one and then the other
      gives the same page in either order. */
  lemma FormsAreIndependent(p: Page, a: bool, b: bool)
    ensures Submit(Submit(p, Enquiry, a).1, Feedback, b).1 == Submit(Submit(p, Feedback, b).1, Enquiry, a).1
  {
  }
}
