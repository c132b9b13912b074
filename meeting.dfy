/** The meeting booking page: three meeting cards, eight time slots, and a draft
    booking that the visitor fills in field by field and submits. */
module MeetingPage {
  import opened Toasts

  datatype MeetingType = MeetingType(
    id: string, title: string, duration: string, price: string,
    description: string, features: seq<string>)

  const MeetingTypes: seq<MeetingType> := [
    MeetingType("consultation", "Initial Consultation", "60 minutes", "Free",
      "Discuss your project vision, requirements, and explore how we can bring your ideas to life.",
      ["Project assessment", "Design direction", "Budget discussion", "Timeline planning"]),
    MeetingType("design-review", "Design Review Session", "90 minutes", "$200",
      "Review design concepts, materials, and finalize project details with our design team.",
      ["Concept presentation", "Material selection", "3D visualization", "Detailed planning"]),
    MeetingType("site-visit", "On-Site Consultation", "2 hours", "$350",
      "Comprehensive site evaluation with measurements, spatial analysis, and design recommendations.",
      ["Space measurement", "Structural assessment", "Lighting evaluation", "Custom recommendations"])
  ]

  const TimeSlots: seq<string> :=
    ["9:00 AM", "10:00 AM", "11:00 AM", "1:00 PM", "2:00 PM", "3:00 PM", "4:00 PM", "5:00 PM"]

  /** Card ids are distinct and non-empty, and there are eight time slots. */
  lemma CatalogueShape()
    ensures |MeetingTypes| == 3 && |TimeSlots| == 8
    ensures forall i, j :: 0 <= i < j < |MeetingTypes| ==> MeetingTypes[i].id != MeetingTypes[j].id
    ensures forall i :: 0 <= i < |MeetingTypes| ==> MeetingTypes[i].id != ""
    ensures forall i, j :: 0 <= i < j < |TimeSlots| ==> TimeSlots[i] != TimeSlots[j]
  {
  }

  /** The eight keys of the draft. */
  datatype Field = Name | Email | Phone | Date | Time | Meeting | Location | Notes

  datatype Draft = Draft(
    name: string, email: string, phone: string, date: string,
    time: string, meetingType: string, location: string, notes: string)

  /** The draft on mount and after every successful booking. */
  const InitialDraft: Draft := Draft("", "", "", "", "", "", "virtual", "")

  function Get(d: Draft, f: Field): string {
    match f
    case Name => d.name
    case Email => d.email
    case Phone => d.phone
    case Date => d.date
    case Time => d.time
    case Meeting => d.meetingType
    case Location => d.location
    case Notes => d.notes
  }

  /** The draft with one field replaced, as `{ ...prev, [field]: value }`. */
  function Set(d: Draft, f: Field, v: string): (r: Draft)
    ensures Get(r, f) == v
    ensures forall g :: g != f ==> Get(r, g) == Get(d, g)
  {
    match f
    case Name => d.(name := v)
    case Email => d.(email := v)
    case Phone => d.(phone := v)
    case Date => d.(date := v)
    case Time => d.(time := v)
    case Meeting => d.(meetingType := v)
    case Location => d.(location := v)
    case Notes => d.(notes := v)
  }

  const Required: set<Field> := {Name, Email, Date, Time, Meeting}

  /** The submit check: each required field must be a non-empty (truthy) string,
      so a draft passes iff no field of the required set is empty. */
  predicate CanSubmit(d: Draft)
    ensures CanSubmit(d) <==> forall f :: f in Required ==> Get(d, f) != ""
  {
    !(d.name == "" || d.email == "" || d.date == "" || d.time == "" || d.meetingType == "")
  }

  /** phone, location and notes never decide the outcome. */
  lemma OptionalFieldsIrrelevant(d: Draft, f: Field, v: string)
    requires f !in Required
    ensures CanSubmit(Set(d, f, v)) == CanSubmit(d)
  {
  }

  /** The check is truthiness, not trimming: blanks pass. */
  lemma WhitespacePasses()
    ensures CanSubmit(Draft(" ", " ", "", " ", " ", " ", "virtual", ""))
  {
  }

  /** The initial draft has no meeting type, so it cannot be booked as it stands. */
  lemma InitialDraftRejected()
    ensures !CanSubmit(InitialDraft)
    ensures forall f :: f != Location ==> Get(InitialDraft, f) == ""
    ensures Get(InitialDraft, Location) == "virtual"
  {
  }

  const MissingFieldsToast: Toast := Toast(Destructive, "Please fill in all required fields",
    "All fields marked with * are required to book your meeting.")
  const BookedToast: Toast := Toast(Plain, "Meeting booked successfully!",
    "You'll receive a confirmation email with meeting details shortly.")

  class BookingForm {
    var formData: Draft
    /** The id of the highlighted card; "" when none is. */
    var selectedMeeting: string

    constructor ()
      ensures formData == InitialDraft && selectedMeeting == ""
    {
      formData := InitialDraft;
      selectedMeeting := "";
    }

    /** The booking form is rendered only while a card is selected. */
    predicate ShowsBookingForm()
      reads this
      ensures forall i :: 0 <= i < |MeetingTypes| && selectedMeeting == MeetingTypes[i].id ==> ShowsBookingForm()
    {
      selectedMeeting != ""
    }

    method HandleInputChange(f: Field, v: string)
      modifies this
      ensures formData == Set(old(formData), f, v)
      ensures selectedMeeting == old(selectedMeeting)
    {
      formData := Set(formData, f, v);
    }

    /** A click on the card of `m`. */
    method SelectMeeting(m: MeetingType)
      modifies this
      ensures selectedMeeting == m.id && formData.meetingType == m.id
      ensures formData == Set(old(formData), Meeting, m.id)
      ensures ShowsBookingForm() <==> m.id != ""
    {
      selectedMeeting := m.id;
      HandleInputChange(Meeting, m.id);
    }

    /** The submit handler: rejects with a destructive toast and changes nothing,
        or confirms, resets the draft and deselects the card (hiding the form). */
    method HandleSubmit() returns (toast: Toast)
      modifies this
      ensures toast == if CanSubmit(old(formData)) then BookedToast else MissingFieldsToast
      ensures IsFailure(toast) <==> !CanSubmit(old(formData))
      ensures CanSubmit(old(formData)) ==> formData == InitialDraft && selectedMeeting == "" && !ShowsBookingForm()
      ensures !CanSubmit(old(formData)) ==> formData == old(formData) && selectedMeeting == old(selectedMeeting)
    {
      if !CanSubmit(formData) {
        return MissingFieldsToast;
      }
      toast := BookedToast;
      formData := InitialDraft;
      selectedMeeting := "";
    }
  }
}
