/** The "Share Your Story" dialog: sign in with Google, fill in role, company, review and
    rating, and post the testimonial to the store. */
module TestimonialDialog {
  import opened Backend
  import TestimonialsSection

  /** The signed-in account as the popup reports it. */
  datatype User = User(displayName: string, photoURL: string)

  /** The popup's settled result. */
  datatype SignIn = SignedIn(user: User) | SignInFailed(error: ServiceError)

  datatype Fields = Fields(role: string, company: string, content: string, rating: int)

  /** The three text inputs of the form. */
  datatype TextField = Role | Company | Content

  const BlankFields := Fields("", "", "", 5)

  const Gradients: seq<string> := [
    "from-pink-500 to-rose-500",
    "from-cyan-500 to-blue-500",
    "from-amber-400 to-orange-500",
    "from-purple-500 to-indigo-500",
    "from-emerald-400 to-green-500",
    "from-red-500 to-pink-600",
    "from-violet-500 to-purple-600",
    "from-fuchsia-500 to-pink-500"
  ]

  const DefaultSubmitError := "Failed to submit testimonial. Please try again."
  const RulesError := "Permission denied. Please check your Firebase Firestore rules."
  const AuthRequired := "Please sign in with Google to post a testimonial."
  const UnauthorizedDomain := "This domain is not authorized. Please add it to your Firebase Console > Authentication > Settings > Authorized Domains."
  const Cancelled := "Sign in was cancelled."

  /** The document written to the store (the server timestamp aside). */
  datatype Record = Record(
    name: string, role: string, content: string,
    rating: int, avatar: string, gradient: string)

  /** A destructive toast. */
  datatype Notice = Notice(title: string, description: string)

  /** `Math.floor(roll * gradients.length)` for a `roll` drawn by `Math.random()`.
      Multiplying by eight is exact in binary floating point, so the real product is the
      one the browser computes. */
  function GradientIndex(roll: real): (i: nat)
    requires 0.0 <= roll < 1.0
    ensures i < |Gradients|
    ensures i as real <= roll * (|Gradients| as real) < (i + 1) as real
  {
    (roll * (|Gradients| as real)).Floor
  }

  /** `getRandomGradient()`. */
  function RandomGradient(roll: real): (g: string)
    requires 0.0 <= roll < 1.0
    ensures g in Gradients
  {
    Gradients[GradientIndex(roll)]
  }

  /** The stored role: "role, company" when a company was given, the bare role otherwise. */
  function RoleLine(role: string, company: string): (r: string)
    ensures |r| >= |role| && r[..|role|] == role
    ensures company != "" ==> |r| == |role| + 2 + |company| && r[|role|..|role| + 2] == ", " && r[|role| + 2..] == company
    ensures r == role <==> company == ""
  {
    if company != "" then role + ", " + company else role
  }

  /** `newTestimonial`: the name and avatar from the account, the rest from the form. */
  function Assemble(user: User, f: Fields, roll: real): (r: Record)
    requires 0.0 <= roll < 1.0
    ensures r.name == user.displayName && r.avatar == user.photoURL
    ensures r.role == RoleLine(f.role, f.company)
    ensures r.content == f.content && r.rating == f.rating
    ensures r.gradient in Gradients
  {
    Record(user.displayName, RoleLine(f.role, f.company), f.content, f.rating, user.photoURL, RandomGradient(roll))
  }

  /** The toast text after a failed write: the rules hint for "permission-denied", else the
      error's own message, else the default text. */
  function SubmitErrorMessage(e: ServiceError): (msg: string)
    ensures msg != ""
    ensures e.code == "permission-denied" ==> msg == RulesError
    ensures e.code != "permission-denied" && e.message != "" ==> msg == e.message
    ensures e.code != "permission-denied" && e.message == "" ==> msg == DefaultSubmitError
  {
    if e.code == "permission-denied" then RulesError
    else if e.message != "" then e.message
    else DefaultSubmitError
  }

  /** The toast after a failed sign-in. */
  function LoginErrorNotice(e: ServiceError): (n: Notice)
    ensures e.code == "auth/unauthorized-domain" ==> n == Notice("Configuration Error", UnauthorizedDomain)
    ensures e.code == "auth/popup-closed-by-user" ==> n == Notice("Cancelled", Cancelled)
    ensures e.code !in {"auth/unauthorized-domain", "auth/popup-closed-by-user"} ==>
              n == Notice("Login Failed", e.message)
  {
    if e.code == "auth/unauthorized-domain" then Notice("Configuration Error", UnauthorizedDomain)
    else if e.code == "auth/popup-closed-by-user" then Notice("Cancelled", Cancelled)
    else Notice("Login Failed", e.message)
  }

  /** The rating row: star s (1..5) is drawn filled when s <= rating. */
  function DialogStars(rating: int): (r: seq<bool>)
    ensures |r| == 5
  {
    seq(5, i => i + 1 <= rating)
  }

  /** The dialog's preview agrees with the card the marquee will draw for the same rating,
      although one counts stars from 1 with `<=` and the other from 0 with `<`. */
  lemma DialogStarsMatchCard(rating: int)
    ensures DialogStars(rating) == TestimonialsSection.Stars(rating)
  {
    var a, b := DialogStars(rating), TestimonialsSection.Stars(rating);
    forall i | 0 <= i < 5 ensures a[i] == b[i] {
    }
  }

  /** After star k is clicked, exactly stars 1..k are filled. */
  lemma ClickedStars(k: int)
    requires 1 <= k <= 5
    ensures forall i :: 0 <= i < 5 ==> (DialogStars(k)[i] <==> i + 1 <= k)
    ensures TestimonialsSection.CountFilled(DialogStars(k)) == k
  {
    DialogStarsMatchCard(k);
    TestimonialsSection.StarsCount(k);
  }

  class Dialog {
    var open: bool
    var loading: bool
    var user: Option<User>
    var formData: Fields

    constructor ()
      ensures !open && !loading && user == None && formData == BlankFields
    {
      open := false;
      loading := false;
      user := None;
      formData := BlankFields;
    }

    method SetOpen(o: bool)
      modifies this`open
      ensures open == o
    {
      open := o;
    }

    /** `handleGoogleLogin`, the popup settling as `result`. */
    method HandleGoogleLogin(result: SignIn) returns (failure: Option<Notice>)
      modifies this`user
      ensures result.SignedIn? ==> user == Some(result.user) && failure == None
      ensures result.SignInFailed? ==> user == old(user) && failure == Some(LoginErrorNotice(result.error))
    {
      match result
      case SignedIn(u) =>
        user := Some(u);
        failure := None;
      case SignInFailed(e) =>
        var title := "Login Failed";
        var description := e.message;
        if e.code == "auth/unauthorized-domain" {
          title := "Configuration Error";
          description := UnauthorizedDomain;
        } else if e.code == "auth/popup-closed-by-user" {
          title := "Cancelled";
          description := Cancelled;
        }
        failure := Some(Notice(title, description));
    }

    /** One of the text inputs changed. */
    method EditText(field: TextField, value: string)
      modifies this`formData
      ensures formData == match field
                          case Role => old(formData).(role := value)
                          case Company => old(formData).(company := value)
                          case Content => old(formData).(content := value)
    {
      match field
      case Role => formData := formData.(role := value);
      case Company => formData := formData.(company := value);
      case Content => formData := formData.(content := value);
    }

    /** Star `k` of the rating row was clicked. */
    method ClickStar(k: int)
      requires 1 <= k <= 5
      modifies this`formData
      ensures formData == old(formData).(rating := k)
    {
      formData := formData.(rating := k);
    }

    /** `handleSubmit`, with `roll` the value `Math.random()` returns and the store write
        settling as `outcome`. `written` is the document sent, if any. */
    method HandleSubmit(roll: real, outcome: Outcome)
      returns (written: Option<Record>, error: Option<string>, ghost loadingDuringWrite: bool)
      requires 0.0 <= roll < 1.0
      modifies this`open, this`loading, this`formData
      ensures old(user).None? ==>
                written == None && error == Some(AuthRequired)
                && open == old(open) && loading == old(loading) && formData == old(formData)
      ensures old(user).Some? ==>
                written == Some(Assemble(old(user).value, old(formData), roll))
                && loadingDuringWrite && !loading
      ensures old(user).Some? && outcome.Ok? ==>
                !open && formData == BlankFields && error == None
      ensures old(user).Some? && outcome.Err? ==>
                open == old(open) && formData == old(formData)
                && error == Some(SubmitErrorMessage(outcome.error))
      ensures user == old(user)
    {
      if user.None? {
        written := None;
        error := Some(AuthRequired);
        loadingDuringWrite := false;
        return;
      }
      loading := true;
      var record := Record(user.value.displayName, RoleLine(formData.role, formData.company),
                           formData.content, formData.rating, user.value.photoURL, RandomGradient(roll));
      written := Some(record);
      loadingDuringWrite := loading;
      if outcome.Ok? {
        open := false;
        formData := BlankFields;
        error := None;
      } else {
        var errorMessage := DefaultSubmitError;
        if outcome.error.code == "permission-denied" {
          errorMessage := RulesError;
        } else if outcome.error.message != "" {
          errorMessage := outcome.error.message;
        }
        error := Some(errorMessage);
      }
      loading := false;
    }
  }
}
