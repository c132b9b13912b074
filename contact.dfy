/** The contact page: a seven-field enquiry draft, updated field by field and
    submitted when name, email and message are filled in. */
module ContactPage {
  import opened Toasts

  datatype Field = Name | Email | Phone | ProjectType | Budget | Timeline | Message

  datatype Draft = Draft(
    name: string, email: string, phone: string, projectType: string,
    budget: string, timeline: string, message: string)

  /** The draft on mount and after every successful submit: every field empty. */
  const EmptyDraft: Draft := Draft("", "", "", "", "", "", "")

  function Get(d: Draft, f: Field): string {
    match f
    case Name => d.name
    case Email => d.email
    case Phone => d.phone
    case ProjectType => d.projectType
    case Budget => d.budget
    case Timeline => d.timeline
    case Message => d.message
  }

  /** The draft with one field replaced, as `{ ...prev, [field]: value }`. */
  function Set(d: Draft, f: Field, v: string): (r: Draft)
    ensures Get(r, f) == v
    ensures forall g :: g != f ==> Get(r, g) == Get(d, g)
  {
    match f
    case Name => d.(name := v)
    case Email => d.(email := v)
    case Phone => d.(phone := v)
    case ProjectType => d.(projectType := v)
    case Budget => d.(budget := v)
    case Timeline => d.(timeline := v)
    case Message => d.(message := v)
  }

  lemma EmptyDraftIsEmpty()
    ensures forall f :: Get(EmptyDraft, f) == ""
  {
  }

  const Required: set<Field> := {Name, Email, Message}

  /** The submit check: name, email and message must be non-empty strings, so a
      draft passes iff no field of the required set is empty. */
  predicate CanSubmit(d: Draft)
    ensures CanSubmit(d) <==> forall f :: f in Required ==> Get(d, f) != ""
  {
    !(d.name == "" || d.email == "" || d.message == "")
  }

  /** phone, project type, budget and timeline never decide the outcome. */
  lemma OptionalFieldsIrrelevant(d: Draft, f: Field, v: string)
    requires f !in Required
    ensures CanSubmit(Set(d, f, v)) == CanSubmit(d)
  {
  }

  /** A draft missing only its name is rejected, whatever the other fields hold. */
  lemma MissingNameRejected(d: Draft)
    requires d.name == "" && d.email != "" && d.message != ""
    ensures !CanSubmit(d)
    ensures CanSubmit(Set(d, Name, "x"))
  {
  }

  const MissingFieldsToast: Toast := Toast(Destructive, "Please fill in required fields",
    "Name, email, and message are required.")
  const SentToast: Toast := Toast(Plain, "Message sent successfully!",
    "We'll get back to you within 24 hours.")

  class EnquiryForm {
    var formData: Draft

    constructor ()
      ensures formData == EmptyDraft
    {
      formData := EmptyDraft;
    }

    method HandleInputChange(f: Field, v: string)
      modifies this
      ensures formData == Set(old(formData), f, v)
    {
      formData := Set(formData, f, v);
    }

    /** The submit handler: rejects with a destructive toast and keeps the draft,
        or confirms and empties every field. */
    method HandleSubmit() returns (toast: Toast)
      modifies this
      ensures toast == if CanSubmit(old(formData)) then SentToast else MissingFieldsToast
      ensures IsFailure(toast) <==> !CanSubmit(old(formData))
      ensures formData == if CanSubmit(old(formData)) then EmptyDraft else old(formData)
      ensures !CanSubmit(formData)
    {
      if !CanSubmit(formData) {
        return MissingFieldsToast;
      }
      toast := SentToast;
      formData := EmptyDraft;
    }
  }

  /** Submitting twice in a row never sends twice: the second submit sees the
      reset (or unchanged, rejected) draft and is rejected. */
  method SubmitTwice(page: EnquiryForm) returns (first: Toast, second: Toast)
    modifies page
    ensures second == MissingFieldsToast
    ensures IsFailure(second)
  {
    first := page.HandleSubmit();
    second := page.HandleSubmit();
  }
}
