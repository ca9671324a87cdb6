/** The admin form that adds a project to the portfolio: six fields, an optional image file
    uploaded to storage ahead of the store write, `loading`/`uploading` flags, and the list
    of stored projects with a delete button on each. */
module AddPortfolioForm {
  import opened Backend

  datatype Field = Title | Category | Image | Kind | Size | Link

  /** The form; `kind` is the source's `type`, `image` the pasted URL. It is also the
      shape of the document written, with `image` replaced by the final URL. */
  datatype PortfolioForm = PortfolioForm(
    title: string, category: string, image: string,
    kind: string, size: string, link: string)

  const BlankForm := PortfolioForm("", "Websites", "", "website", "regular", "")

  /** A file chosen in the upload input. */
  datatype ImageFile = ImageFile(name: string)

  /** The settled result of `uploadBytes` followed by `getDownloadURL`. */
  datatype Upload = Uploaded(url: string) | UploadFailed(error: ServiceError)

  /** A stored project as the admin list shows it. */
  datatype StoredProject = StoredProject(id: string, project: PortfolioForm)

  const DefaultError := "Failed to add project. Please try again."
  const StorageRulesError := "Permission denied: Firebase Storage rules might block uploads."
  const StoreRulesError := "Permission denied: Firebase Firestore rules might block writes."
  const StorageMissing := "Firebase Storage is not initialized. Check your .env file or firebase configuration."
  const Deleted := "Project removed successfully."
  const DeleteFailed := "Failed to delete project."

  function Get(f: PortfolioForm, field: Field): string {
    match field
    case Title => f.title
    case Category => f.category
    case Image => f.image
    case Kind => f.kind
    case Size => f.size
    case Link => f.link
  }

  /** `handleChange(field, value)`: `{ ...prev, [field]: value }`. */
  function Put(f: PortfolioForm, field: Field, value: string): (r: PortfolioForm)
    ensures Get(r, field) == value
    ensures forall g :: g != field ==> Get(r, g) == Get(f, g)
  {
    match field
    case Title => f.(title := value)
    case Category => f.(category := value)
    case Image => f.(image := value)
    case Kind => f.(kind := value)
    case Size => f.(size := value)
    case Link => f.(link := value)
  }

  /** The toast text after a failed submit; the first matching rule wins. */
  function ErrorMessage(e: ServiceError): (msg: string)
    ensures msg != ""
    ensures e.code == "storage/unauthorized" ==> msg == StorageRulesError
    ensures e.code == "permission-denied" ==> msg == StoreRulesError
    ensures e.code !in {"storage/unauthorized", "permission-denied"} && e.message != "" ==> msg == e.message
    ensures e.code !in {"storage/unauthorized", "permission-denied"} && e.message == "" ==> msg == DefaultError
  {
    if e.code == "storage/unauthorized" then StorageRulesError
    else if e.code == "permission-denied" then StoreRulesError
    else if e.message != "" then e.message
    else DefaultError
  }

  /** `imageUrl.includes(part)`. */
  predicate Contains(s: string, part: string) {
    if |s| < |part| then false
    else s[..|part|] == part || (|s| > 0 && Contains(s[1..], part))
  }

  /** Whatever surrounds it, a string that has `part` inside contains it: any download
      URL of the storage bucket qualifies for the file deletion. */
  lemma {:induction false} ContainsInfix(before: string, part: string, after: string)
    ensures Contains(before + part + after, part)
  {
    var s := before + part + after;
    if before == [] {
      assert s[..|part|] == part;
    } else {
      assert s[1..] == before[1..] + part + after;
      ContainsInfix(before[1..], part, after);
    }
  }

  /** `part` occurs in `s` starting at index `i`. */
  predicate PartAt(s: string, part: string, i: int) {
    0 <= i <= |s| - |part| && s[i..i + |part|] == part
  }

  /** Conversely, a string that passes the test has `part` at some position. */
  lemma {:induction false} ContainsAt(s: string, part: string)
    requires Contains(s, part)
    ensures exists i :: PartAt(s, part, i)
    decreases |s|
  {
    if s[..|part|] == part {
      assert PartAt(s, part, 0);
    } else {
      ContainsAt(s[1..], part);
      var i :| PartAt(s[1..], part, i);
      assert s[i + 1..i + 1 + |part|] == s[1..][i..i + |part|];
      assert PartAt(s, part, i + 1);
    }
  }

  /** `handleDelete(id, imageUrl)` with the confirmation answered `confirmed` and the record
      delete settling as `recordDelete`. It changes no component state (the store listener
      refreshes the list); what it does is which deletions it asks for and which toast it
      shows. The storage deletion's own failure is logged and swallowed. */
  method HandleDelete(confirmed: bool, imageUrl: Option<string>, recordDelete: Outcome)
    returns (recordDeleteSent: bool, fileDeleteSent: bool, toast: Option<string>)
    ensures !confirmed ==> !recordDeleteSent && !fileDeleteSent && toast == None
    ensures recordDeleteSent <==> confirmed
    ensures fileDeleteSent <==>
              confirmed && recordDelete.Ok? && imageUrl.Some? && Contains(imageUrl.value, "firebasestorage")
    ensures confirmed && recordDelete.Ok? ==> toast == Some(Deleted)
    ensures confirmed && recordDelete.Err? ==> toast == Some(DeleteFailed)
  {
    recordDeleteSent, fileDeleteSent, toast := false, false, None;
    if !confirmed {
      return;
    }
    recordDeleteSent := true;
    if recordDelete.Err? {
      toast := Some(DeleteFailed);
      return;
    }
    if imageUrl.Some? && imageUrl.value != "" && Contains(imageUrl.value, "firebasestorage") {
      fileDeleteSent := true;
    }
    toast := Some(Deleted);
  }

  class Form {
    var loading: bool
    var uploading: bool
    var projects: seq<StoredProject>
    var imageFile: Option<ImageFile>
    var formData: PortfolioForm

    constructor ()
      ensures !loading && !uploading && projects == [] && imageFile == None && formData == BlankForm
    {
      loading, uploading := false, false;
      projects := [];
      imageFile := None;
      formData := BlankForm;
    }

    /** The ordered store listener fired with `docs` (newest first). */
    method OnSnapshot(docs: seq<StoredProject>)
      modifies this`projects
      ensures projects == docs
    {
      projects := docs;
    }

    method HandleChange(field: Field, value: string)
      modifies this`formData
      ensures formData == Put(old(formData), field, value)
    {
      formData := Put(formData, field, value);
    }

    /** The file input changed; `files` is its file list, possibly empty. */
    method HandleFileChange(files: seq<ImageFile>)
      modifies this`imageFile
      ensures |files| > 0 ==> imageFile == Some(files[0])
      ensures |files| == 0 ==> imageFile == old(imageFile)
    {
      if |files| > 0 {
        imageFile := Some(files[0]);
      }
    }

    /** `handleSubmit`. `storageReady` says whether the storage client was configured,
        `upload` how the upload settles (consulted only when a file is chosen), `write`
        how the record write settles. `written` is the record sent to the store, if any. */
    method HandleSubmit(storageReady: bool, upload: Upload, write: Outcome)
      returns (written: Option<PortfolioForm>, error: Option<string>, ghost loadingDuringWrite: bool)
      modifies this`loading, this`uploading, this`imageFile, this`formData
      ensures !loading && !uploading
      ensures old(imageFile).None? ==> written == Some(old(formData))
      ensures old(imageFile).Some? && !storageReady ==> written == None && error == Some(StorageMissing)
      ensures old(imageFile).Some? && storageReady && upload.UploadFailed? ==>
                written == None && error == Some(ErrorMessage(upload.error))
      ensures old(imageFile).Some? && storageReady && upload.Uploaded? ==>
                written == Some(old(formData).(image := upload.url))
      ensures written.Some? ==> loadingDuringWrite
      ensures written.Some? && write.Ok? ==>
                formData == BlankForm && imageFile == None && error == None
      ensures written.Some? && write.Err? ==> error == Some(ErrorMessage(write.error))
      ensures !(written.Some? && write.Ok?) ==>
                formData == old(formData) && imageFile == old(imageFile) && error.Some?
      ensures projects == old(projects)
    {
      loading := true;
      written, loadingDuringWrite := None, false;
      var failure: Option<ServiceError> := None;
      var finalImageUrl := formData.image;
      if imageFile.Some? {
        if !storageReady {
          failure := Some(ServiceError("", StorageMissing));
        } else {
          uploading := true;
          match upload
          case Uploaded(url) =>
            finalImageUrl := url;
            uploading := false;
          case UploadFailed(e) =>
            failure := Some(e);
        }
      }
      if failure.None? {
        written := Some(formData.(image := finalImageUrl));
        loadingDuringWrite := loading;
        if write.Ok? {
          formData := BlankForm;
          imageFile := None;
        } else {
          failure := Some(write.error);
        }
      }
      if failure.Some? {
        var errorMessage := DefaultError;
        if failure.value.code == "storage/unauthorized" {
          errorMessage := StorageRulesError;
        } else if failure.value.code == "permission-denied" {
          errorMessage := StoreRulesError;
        } else if failure.value.message != "" {
          errorMessage := failure.value.message;
        }
        error := Some(errorMessage);
      } else {
        error := None;
      }
      loading := false;
      uploading := false;
    }
  }
}
