/** The "Join the Revolution" crew application form: six fields edited by input name
    and an `isSubmitting` flag for the pending store write. */
module JoinCrewSection {
  import opened Backend
  import Phone

  /** The `name` attributes of the form's inputs. */
  datatype Field = Name | Email | PhoneNumber | Portfolio | Role | Message

  datatype Application = Application(
    name: string, email: string, phone: string,
    portfolio: string, role: string, message: string)

  const EmptyApplication := Application("", "", "", "", "", "")

  const FailureMessage := "Something went wrong. Please try again."

  /** The roles offered by the select. */
  const Roles: seq<string> := [
    "Video Editor", "Photo Editor", "Photographer", "Videographer",
    "Social Media Manager", "Graphic Designer", "Web Developer",
    "Content Writer", "Other"
  ]

  /** The values the role select can report: the empty placeholder option, then the roles. */
  const RoleChoices: seq<string> := [""] + Roles

  function Get(a: Application, field: Field): string {
    match field
    case Name => a.name
    case Email => a.email
    case PhoneNumber => a.phone
    case Portfolio => a.portfolio
    case Role => a.role
    case Message => a.message
  }

  /** `{ ...formData, [name]: value }`. */
  function Put(a: Application, field: Field, value: string): (r: Application)
    ensures Get(r, field) == value
    ensures forall g :: g != field ==> Get(r, g) == Get(a, g)
  {
    match field
    case Name => a.(name := value)
    case Email => a.(email := value)
    case PhoneNumber => a.(phone := value)
    case Portfolio => a.(portfolio := value)
    case Role => a.(role := value)
    case Message => a.(message := value)
  }

  /** What the form may hold between events: a sanitised phone and a role the select offers. */
  predicate Consistent(a: Application) {
    Phone.WellFormed(a.phone) && a.role in RoleChoices
  }

  /** `handleChange` for the input called `field` reporting `value`. */
  function Edit(a: Application, field: Field, value: string): (r: Application)
    requires field == Role ==> value in RoleChoices
    ensures Consistent(a) ==> Consistent(r)
    ensures forall g :: g != field ==> Get(r, g) == Get(a, g)
    ensures field != PhoneNumber ==> Get(r, field) == value
    ensures field == PhoneNumber && |Phone.DigitsOnly(value)| > Phone.MaxDigits ==> r == a
    ensures field == PhoneNumber && |Phone.DigitsOnly(value)| <= Phone.MaxDigits ==>
              r.phone == Phone.DigitsOnly(value)
  {
    if field == PhoneNumber then
      match Phone.Sanitise(value)
      case Some(digits) => Put(a, PhoneNumber, digits)
      case None => a
    else
      Put(a, field, value)
  }

  /** The browser's checks before `onSubmit` fires: name, email, phone, role and message
      are `required`, the phone has `minLength` and `maxLength` 10. */
  predicate Submittable(a: Application) {
    && a.name != ""
    && a.email != ""
    && |a.phone| == 10
    && a.role != ""
    && a.message != ""
  }

  /** A submittable, consistent application names one of the nine listed roles and a
      ten-digit phone. */
  lemma SubmittableRole(a: Application)
    requires Consistent(a) && Submittable(a)
    ensures a.role in Roles
    ensures Phone.AllDigits(a.phone) && |a.phone| == Phone.MaxDigits
  {
    assert a.role in [""] + Roles;
  }

  class Section {
    var formData: Application
    var isSubmitting: bool

    ghost predicate Valid()
      reads this
    {
      Consistent(formData)
    }

    constructor ()
      ensures Valid()
      ensures formData == EmptyApplication && !isSubmitting
    {
      formData := EmptyApplication;
      isSubmitting := false;
    }

    method HandleChange(field: Field, value: string)
      requires Valid()
      requires field == Role ==> value in RoleChoices
      modifies this`formData
      ensures Valid()
      ensures formData == Edit(old(formData), field, value)
    {
      if field == PhoneNumber {
        var digits := Phone.DigitsOnly(value);
        if |digits| <= Phone.MaxDigits {
          formData := Put(formData, PhoneNumber, digits);
        }
        return;
      }
      formData := Put(formData, field, value);
    }

    /** `handleSubmit`, the store write settling as `outcome`; `record` is the document
        written (the timestamp aside). */
    method HandleSubmit(outcome: Outcome) returns (record: Application, error: Option<string>, ghost submittingDuringWrite: bool)
      requires Valid()
      modifies this
      ensures Valid()
      ensures record == old(formData)
      ensures submittingDuringWrite && !isSubmitting
      ensures outcome.Ok? ==> formData == EmptyApplication && error == None
      ensures outcome.Err? ==> formData == old(formData) && error == Some(FailureMessage)
    {
      isSubmitting := true;
      record := formData;
      submittingDuringWrite := isSubmitting;
      if outcome.Ok? {
        formData := EmptyApplication;
        error := None;
      } else {
        error := Some(FailureMessage);
      }
      isSubmitting := false;
    }
  }
}
