/** The "Start Your Project" enquiry dialog: a six-field client form, an `isOpen` flag
    for the dialog and an `isSubmitting` flag for the pending store write. */
module ProjectFormDialog {
  import opened Backend
  import Phone

  /** The field names the inputs pass to `handleChange`. */
  datatype Field = Name | Email | PhoneNumber | Website | ProjectType | Message

  datatype ClientForm = ClientForm(
    name: string, email: string, phone: string,
    website: string, projectType: string, message: string)

  const EmptyForm := ClientForm("", "", "", "", "", "")

  const FailureMessage := "Something went wrong. Please try again."

  function Get(f: ClientForm, field: Field): string {
    match field
    case Name => f.name
    case Email => f.email
    case PhoneNumber => f.phone
    case Website => f.website
    case ProjectType => f.projectType
    case Message => f.message
  }

  /** `{ ...prev, [field]: value }`. */
  function Put(f: ClientForm, field: Field, value: string): (r: ClientForm)
    ensures Get(r, field) == value
    ensures forall g :: g != field ==> Get(r, g) == Get(f, g)
  {
    match field
    case Name => f.(name := value)
    case Email => f.(email := value)
    case PhoneNumber => f.(phone := value)
    case Website => f.(website := value)
    case ProjectType => f.(projectType := value)
    case Message => f.(message := value)
  }

  /** `handleChange(field, value)` applied to the current form. */
  function Edit(f: ClientForm, field: Field, value: string): (r: ClientForm)
    ensures Phone.WellFormed(f.phone) ==> Phone.WellFormed(r.phone)
    ensures forall g :: g != field ==> Get(r, g) == Get(f, g)
    ensures field != PhoneNumber ==> Get(r, field) == value
    ensures field == PhoneNumber && |Phone.DigitsOnly(value)| > Phone.MaxDigits ==> r == f
    ensures field == PhoneNumber && |Phone.DigitsOnly(value)| <= Phone.MaxDigits ==>
              r.phone == Phone.DigitsOnly(value) && Phone.WellFormed(r.phone)
  {
    if field == PhoneNumber then
      match Phone.Sanitise(value)
      case Some(digits) => Put(f, PhoneNumber, digits)
      case None => f
    else
      Put(f, field, value)
  }

  /** The constraints the browser checks before it fires `onSubmit`: every field but the
      website is `required`, the name has `minLength` 2, the phone `minLength` and
      `maxLength` 10, the message `minLength` 10. */
  predicate Submittable(f: ClientForm) {
    && |f.name| >= 2
    && f.email != ""
    && |f.phone| == 10
    && f.projectType != ""
    && |f.message| >= 10
  }

  /** Under the phone invariant a submittable form carries exactly ten digits, and the
      freshly reset form cannot be sent again until it is filled in. */
  lemma SubmittablePhone(f: ClientForm)
    requires Phone.WellFormed(f.phone) && Submittable(f)
    ensures Phone.AllDigits(f.phone) && |f.phone| == Phone.MaxDigits
    ensures f != EmptyForm
  {
  }

  /** A phone edit that is accepted and then repeated with the stored value changes
      nothing: the sanitiser is idempotent on what it stores. */
  lemma {:induction false} PhoneEditIdempotent(f: ClientForm, value: string)
    requires |Phone.DigitsOnly(value)| <= Phone.MaxDigits
    ensures var g := Edit(f, PhoneNumber, value); Edit(g, PhoneNumber, g.phone) == g
  {
    var g := Edit(f, PhoneNumber, value);
    Phone.SanitiseStored(g.phone);
  }

  class Dialog {
    var isOpen: bool
    var isSubmitting: bool
    var form: ClientForm

    ghost predicate Valid()
      reads this
    {
      Phone.WellFormed(form.phone)
    }

    constructor ()
      ensures Valid()
      ensures !isOpen && !isSubmitting && form == EmptyForm
    {
      isOpen := false;
      isSubmitting := false;
      form := EmptyForm;
    }

    /** `onOpenChange={setIsOpen}`: the trigger opens, the close button and the overlay close. */
    method SetOpen(open: bool)
      modifies this`isOpen
      ensures isOpen == open
    {
      isOpen := open;
    }

    method HandleChange(field: Field, value: string)
      requires Valid()
      modifies this`form
      ensures Valid()
      ensures form == Edit(old(form), field, value)
    {
      if field == PhoneNumber {
        var digits := Phone.DigitsOnly(value);
        if |digits| <= Phone.MaxDigits {
          form := form.(phone := digits);
        }
        return;
      }
      form := Put(form, field, value);
    }

    /** `handleSubmit`, with the store write settling as `outcome`. `record` is what is
        written (the timestamp aside); `submittingDuringWrite` is the flag while the write
        is pending. */
    method HandleSubmit(outcome: Outcome) returns (record: ClientForm, error: Option<string>, ghost submittingDuringWrite: bool)
      requires Valid()
      modifies this
      ensures Valid()
      ensures record == old(form)
      ensures submittingDuringWrite && !isSubmitting
      ensures outcome.Ok? ==> !isOpen && form == EmptyForm && error == None
      ensures outcome.Err? ==> isOpen == old(isOpen) && form == old(form) && error == Some(FailureMessage)
    {
      isSubmitting := true;
      record := form;
      submittingDuringWrite := isSubmitting;
      if outcome.Ok? {
        isOpen := false;
        form := EmptyForm;
        error := None;
      } else {
        error := Some(FailureMessage);
      }
      isSubmitting := false;
    }
  }
}
