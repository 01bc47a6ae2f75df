/**
 * The profile editor: optional new username, e-mail and description held in
 * a `useForm` record, an optional new avatar, checks on submit, the partial
 * update sent to the server, and the reset after a successful save.
 * Messages are the translation keys the editor passes to its translator.
 */
module ProfileInfo {
  import opened Wrappers
  import opened Text
  import opened Api
  import opened Toast
  import opened Validators
  import opened UseForm
  import Auth
  import ImageUrl
  import DescriptionTextArea

  const UsernameField := "username"
  const EmailField := "email"
  const DescriptionField := "description"

  const MaxTextLength := 50
  const MaxDescriptionLength := 200
  const MaxAvatarSize := 10 * 1024 * 1024

  const UsernameMaxLengthKey := "errors.usernameMaxLength"
  const EmailMaxLengthKey := "errors.emailMaxLength"

  /** `hasChanges`: some field is non-blank or an avatar is chosen; the save button is disabled otherwise. */
  predicate HasChanges(username: string, email: string, description: string, avatar: Option<FileInfo>) {
    !IsBlank(username) || !IsBlank(email) || !IsBlank(description) || avatar.Some?
  }

  /** The body of `PUT /api/profile`: only the keys that are set are sent. */
  datatype ProfileUpdate = ProfileUpdate(
    username: Option<string>, email: Option<string>, description: Option<string>, profileImage: Option<string>)

  const NoUpdate := ProfileUpdate(None, None, None, None)

  /** A field's trimmed value, when it is not blank. */
  function TrimmedIfSet(s: string): (r: Option<string>)
    ensures r.Some? <==> !IsBlank(s)
    ensures r.Some? ==> r.value == Trim(s)
  {
    if IsBlank(s) then None else Some(Trim(s))
  }

  const ImageUploadFailedKey := "profile.imageUploadFailed"

  /**
   * `mutationFn` up to the update request: each non-blank field trimmed, and
   * the uploaded avatar's URL when an avatar is chosen; a failed upload aborts.
   */
  function BuildUpdate(username: string, email: string, description: string, avatar: Option<FileInfo>,
                       upload: Result<string, RequestError>): (r: Result<ProfileUpdate, string>)
    ensures r.Err? <==> avatar.Some? && upload.Err?
    ensures r.Err? ==> r.error == ImageUploadFailedKey
    ensures r.Ok? ==>
      && r.value.username == TrimmedIfSet(username)
      && r.value.email == TrimmedIfSet(email)
      && r.value.description == TrimmedIfSet(description)
      && (r.value.profileImage.Some? <==> avatar.Some?)
      && (avatar.Some? ==> r.value.profileImage == Some(upload.value))
  {
    var data := ProfileUpdate(TrimmedIfSet(username), TrimmedIfSet(email), TrimmedIfSet(description), None);
    if avatar.Some? then
      match upload
      case Ok(url) => Ok(data.(profileImage := Some(url)))
      case Err(_) => Err(ImageUploadFailedKey)
    else Ok(data)
  }

  /**
   * A save without changes would send an empty update, and a save with
   * changes sends a non-empty one (or fails on the upload).
   */
  lemma UpdateIsEmptyIffNoChanges(username: string, email: string, description: string,
                                 avatar: Option<FileInfo>, upload: Result<string, RequestError>)
    ensures !HasChanges(username, email, description, avatar) ==>
      BuildUpdate(username, email, description, avatar, upload) == Ok(NoUpdate)
    ensures HasChanges(username, email, description, avatar) ==>
      var r := BuildUpdate(username, email, description, avatar, upload);
      r.Err? || r.value != NoUpdate
  {
  }

  /** The e-mail message the validator phase of `handleSubmit` leaves: the validator's, for a non-blank value. */
  function EmailValidatorError(email: string): (e: string)
    ensures IsBlank(email) ==> e == ""
    ensures !IsBlank(email) ==> (e == "" <==> MatchesEmailRegex(Trim(email)))
  {
    if !IsBlank(email) && ValidateEmail(email).Some? then Message(ValidateEmail(email).value) else ""
  }

  /** The username message the validator phase of `handleSubmit` leaves: the validator's, for a non-blank value. */
  function UsernameValidatorError(username: string): (e: string)
    ensures IsBlank(username) ==> e == ""
    ensures !IsBlank(username) ==>
      (e == "" <==> StartsWith(username, "@") && |username| >= MinUsernameLength && !Contains(username, ' '))
  {
    if !IsBlank(username) && ValidateUsername(username).Some? then Message(ValidateUsername(username).value) else ""
  }

  /** The e-mail error left by `handleSubmit`: the length limit first, then the validator for a non-blank value. */
  function EmailErrorOnSubmit(email: string): (e: string)
    ensures |email| == MaxTextLength ==> e == EmailMaxLengthKey
    ensures |email| != MaxTextLength && IsBlank(email) ==> e == ""
    ensures |email| != MaxTextLength && !IsBlank(email) ==> (e == "" <==> MatchesEmailRegex(Trim(email)))
  {
    if |email| == MaxTextLength then EmailMaxLengthKey else EmailValidatorError(email)
  }

  /** The username error left by `handleSubmit`: the length limit first, then the validator for a non-blank value. */
  function UsernameErrorOnSubmit(username: string): (e: string)
    ensures |username| == MaxTextLength ==> e == UsernameMaxLengthKey
    ensures |username| != MaxTextLength && IsBlank(username) ==> e == ""
    ensures |username| != MaxTextLength && !IsBlank(username) ==>
      (e == "" <==> StartsWith(username, "@") && |username| >= MinUsernameLength && !Contains(username, ' '))
  {
    if |username| == MaxTextLength then UsernameMaxLengthKey else UsernameValidatorError(username)
  }

  /** A message at the length limit replaces whatever the validator phase left in that slot. */
  function AtLimit(errors: map<string, string>, field: string, atLimit: bool, key: string): map<string, string> {
    if atLimit then errors[field := key] else errors
  }

  /** Whether `handleSubmit` finds an error and issues no update. */
  predicate SubmitBlocked(username: string, email: string, description: string) {
    || (!IsBlank(email) && ValidateEmail(email).Some?)
    || (!IsBlank(username) && ValidateUsername(username).Some?)
    || |username| == MaxTextLength
    || |email| == MaxTextLength
    || |description| == MaxDescriptionLength
  }

  /** A submit is blocked exactly when it leaves an error message, or the description is at its limit (which shows none). */
  lemma BlockedIffErrorShown(username: string, email: string, description: string)
    ensures SubmitBlocked(username, email, description) <==>
      EmailErrorOnSubmit(email) != "" || UsernameErrorOnSubmit(username) != "" || |description| == MaxDescriptionLength
  {
    if !IsBlank(email) && ValidateEmail(email).Some? {
      assert Message(ValidateEmail(email).value) != "";
    }
    if !IsBlank(username) && ValidateUsername(username).Some? {
      assert Message(ValidateUsername(username).value) != "";
    }
  }

  datatype AvatarError = InvalidAvatarType | AvatarTooLarge

  function AvatarErrorKey(e: AvatarError): string {
    match e
    case InvalidAvatarType => "profile.invalidAvatarType"
    case AvatarTooLarge => "profile.fileTooLarge"
  }

  /** The avatar check of `handleFileChange`: JPEG, PNG or SVG first, then at most 10 MiB. */
  function CheckAvatar(f: FileInfo): (r: Option<AvatarError>)
    ensures var typeOk := f.mime == "image/jpeg" || f.mime == "image/png" || f.mime == "image/svg+xml";
      && (r == Some(InvalidAvatarType) <==> !typeOk)
      && (r == Some(AvatarTooLarge) <==> typeOk && f.size > MaxAvatarSize)
      && (r == None <==> typeOk && f.size <= MaxAvatarSize)
  {
    if f.mime != "image/jpeg" && f.mime != "image/png" && f.mime != "image/svg+xml" then Some(InvalidAvatarType)
    else if f.size > MaxAvatarSize then Some(AvatarTooLarge)
    else None
  }

  const UpdateErrorKey := "profile.updateError"
  const ProfileUpdatedKey := "profile.profileUpdated"

  /**
   * `onError`'s message: the server's message for an `AxiosError` that has
   * one, else the message of any `Error` (an `AxiosError` included), else the default.
   */
  function ProfileErrorMessage(err: RequestError): (m: string)
    ensures ServerMessage(err).Some? ==> m == ServerMessage(err).value
    ensures ServerMessage(err).None? && !err.NotAnError? ==> m == err.message
    ensures err.NotAnError? ==> m == UpdateErrorKey
  {
    if ServerMessage(err).Some? then ServerMessage(err).value
    else if !err.NotAnError? then err.message
    else UpdateErrorKey
  }

  /** The two phases of `handleSubmit` together leave, per field, the length message if any, else the validator's. */
  lemma PhasesCompose(before: map<string, string>, username: string, email: string)
    ensures AtLimit(AtLimit(before[EmailField := EmailValidatorError(email)][UsernameField := UsernameValidatorError(username)],
                            UsernameField, |username| == MaxTextLength, UsernameMaxLengthKey),
                    EmailField, |email| == MaxTextLength, EmailMaxLengthKey)
      == before[EmailField := EmailErrorOnSubmit(email)][UsernameField := UsernameErrorOnSubmit(username)]
  {
    assert EmailField != UsernameField by { assert |EmailField| != |UsernameField|; }
  }

  /** A user's `profileImage` when it is a non-empty string (the only values the source treats as set). */
  function StoredImage(u: Auth.User): (r: Option<string>)
    ensures r.Some? <==> u.profileImage.Some? && u.profileImage.value != ""
    ensures r.Some? ==> r == u.profileImage
  {
    if u.profileImage.Some? && u.profileImage.value != "" then u.profileImage else None
  }

  /** The `src` of the avatar image: the preview, else the signed-in user's stored avatar, else "avatar.png". */
  function AvatarSource(preview: Option<string>, user: Option<Auth.User>): (src: string)
    ensures src != ""
    ensures preview.Some? && preview.value != "" ==> src == preview.value
    ensures !(preview.Some? && preview.value != "") && !(user.Some? && StoredImage(user.value).Some?) ==>
      src == ImageUrl.DefaultFallback
    ensures !(preview.Some? && preview.value != "") && user.Some? && StoredImage(user.value).Some? ==>
      src == ImageUrl.GetImageUrl(ImageUrl.Str(StoredImage(user.value).value), ImageUrl.DefaultFallback)
  {
    if preview.Some? && preview.value != "" then preview.value
    else
      var stored := if user.Some? && user.value.profileImage.Some? then ImageUrl.Str(user.value.profileImage.value) else ImageUrl.Null;
      var url := ImageUrl.GetImageUrl(stored, ImageUrl.DefaultFallback);
      if url != "" then url else ImageUrl.DefaultFallback
  }

  class ProfileEditor {
    const form: Form<string>
    var avatarFile: Option<FileInfo>
    var avatarPreview: Option<string>
    var isInitialized: bool

    ghost predicate Valid()
      reads this, form
    {
      && UsernameField in form.values && EmailField in form.values && DescriptionField in form.values
      && |form.values[UsernameField]| <= MaxTextLength
      && |form.values[EmailField]| <= MaxTextLength
      && |form.values[DescriptionField]| <= MaxDescriptionLength
      && (avatarFile.Some? ==> CheckAvatar(avatarFile.value) == None)
    }

    /** The first render: three empty fields, no errors, no avatar. */
    constructor ()
      ensures Valid() && fresh(form)
      ensures form.values == map[UsernameField := "", EmailField := "", DescriptionField := ""]
      ensures form.errors == map[] && avatarFile == None && avatarPreview == None && !isInitialized
    {
      form := new Form(map[UsernameField := "", EmailField := "", DescriptionField := ""]);
      avatarFile := None;
      avatarPreview := None;
      isInitialized := false;
    }

    /**
     * The preview effect: on its first run it shows the stored avatar of the
     * fetched profile, or of the signed-in user while the profile is not
     * loaded; later runs change nothing.
     */
    method InitializeAvatar(profileData: Option<Auth.User>, user: Option<Auth.User>)
      modifies this
      ensures isInitialized
      ensures avatarFile == old(avatarFile)
      ensures old(isInitialized) ==> avatarPreview == old(avatarPreview)
      ensures !old(isInitialized) ==>
        var source := if profileData.Some? then profileData else user;
        && (source.Some? && StoredImage(source.value).Some? ==>
              avatarPreview == Some(ImageUrl.GetImageUrl(ImageUrl.Str(StoredImage(source.value).value), ImageUrl.DefaultFallback)))
        && (!(source.Some? && StoredImage(source.value).Some?) ==> avatarPreview == old(avatarPreview))
    {
      if isInitialized {
        return;
      }
      var source := if profileData.Some? then profileData else user;
      if source.Some? && StoredImage(source.value).Some? {
        avatarPreview := Some(ImageUrl.GetImageUrl(ImageUrl.Str(StoredImage(source.value).value), ImageUrl.DefaultFallback));
      }
      isInitialized := true;
    }

    /**
     * `handleChangeUsername` / `handleChangeEmail`: the value is stored only
     * while it fits in 50 characters, and the field's error is cleared either way.
     */
    method HandleChangeText(field: string, newValue: string)
      requires Valid() && (field == UsernameField || field == EmailField)
      modifies form
      ensures Valid()
      ensures form.values == if |newValue| <= MaxTextLength then old(form.values)[field := newValue] else old(form.values)
      ensures form.ErrorOf(field) == ""
      ensures forall g :: g != field ==> form.ErrorOf(g) == old(form.ErrorOf(g))
      ensures form.touched == old(form.touched)
    {
      var hadError := form.ErrorOf(field) != "";
      if |newValue| <= MaxTextLength {
        form.SetFieldValue(field, newValue);
      }
      if hadError {
        form.SetFieldError(field, "");
      }
    }

    /** An edit of the description, through the text area's 200-character gate. */
    method HandleDescriptionChange(newValue: string)
      requires Valid()
      modifies form
      ensures Valid()
      ensures form.values == if |newValue| <= MaxDescriptionLength then old(form.values)[DescriptionField := newValue] else old(form.values)
      ensures form.errors == if |newValue| <= MaxDescriptionLength then old(form.errors)[DescriptionField := ""] else old(form.errors)
      ensures forall g :: g != DescriptionField ==> form.ErrorOf(g) == old(form.ErrorOf(g))
      ensures form.touched == old(form.touched)
    {
      var forwarded := DescriptionTextArea.HandleChange(newValue, MaxDescriptionLength);
      if forwarded.Some? {
        form.SetFieldValue(DescriptionField, forwarded.value);
      }
    }

    /**
     * The validator phase of `handleSubmit`: both errors cleared, then each
     * non-blank field's validator message shown.
     */
    method ShowValidatorErrors(username: string, email: string) returns (failed: bool)
      modifies form
      ensures form.values == old(form.values) && form.touched == old(form.touched)
      ensures form.errors == old(form.errors)[EmailField := EmailValidatorError(email)][UsernameField := UsernameValidatorError(username)]
      ensures failed <==> (!IsBlank(email) && ValidateEmail(email).Some?) || (!IsBlank(username) && ValidateUsername(username).Some?)
    {
      form.SetFieldError(EmailField, "");
      form.SetFieldError(UsernameField, "");
      failed := false;
      if !IsBlank(email) {
        var emailError := ValidateEmail(email);
        if emailError.Some? {
          form.SetFieldError(EmailField, Message(emailError.value));
          failed := true;
        }
      }
      if !IsBlank(username) {
        var usernameError := ValidateUsername(username);
        if usernameError.Some? {
          form.SetFieldError(UsernameField, Message(usernameError.value));
          failed := true;
        }
      }
    }

    /** The length phase of `handleSubmit`: a field at 50 characters gets its limit message, username first. */
    method ShowLengthErrors(username: string, email: string) returns (failed: bool)
      modifies form
      ensures form.values == old(form.values) && form.touched == old(form.touched)
      ensures form.errors == AtLimit(AtLimit(old(form.errors), UsernameField, |username| == MaxTextLength, UsernameMaxLengthKey),
                                     EmailField, |email| == MaxTextLength, EmailMaxLengthKey)
      ensures failed <==> |username| == MaxTextLength || |email| == MaxTextLength
    {
      failed := false;
      if |username| == MaxTextLength {
        failed := true;
        form.SetFieldError(UsernameField, UsernameMaxLengthKey);
      }
      if |email| == MaxTextLength {
        failed := true;
        form.SetFieldError(EmailField, EmailMaxLengthKey);
      }
    }

    /**
     * `handleSubmit`: clears both errors, validates each non-blank field, lets
     * the 50-character limit override the validator's message, and issues the
     * update only when no check failed.
     */
    method HandleSubmit() returns (submitted: bool)
      requires Valid()
      modifies form
      ensures Valid() && form.values == old(form.values) && form.touched == old(form.touched)
      ensures var u, e, d := form.values[UsernameField], form.values[EmailField], form.values[DescriptionField];
        && form.errors == old(form.errors)[EmailField := EmailErrorOnSubmit(e)][UsernameField := UsernameErrorOnSubmit(u)]
        && (submitted <==> !SubmitBlocked(u, e, d))
    {
      var username := form.values[UsernameField];
      var email := form.values[EmailField];
      var description := form.values[DescriptionField];
      var hasError := ShowValidatorErrors(username, email);
      var overLimit := ShowLengthErrors(username, email);
      hasError := hasError || overLimit;
      if |description| == MaxDescriptionLength {
        hasError := true;
      }
      submitted := !hasError;
      PhasesCompose(old(form.errors), username, email);
    }

    /**
     * `handleFileChange`, with `objectUrl` the preview URL the browser would
     * create: a rejected avatar raises a toast and changes nothing else.
     */
    method HandleFileChange(file: Option<FileInfo>, objectUrl: string, toasts: ToastProvider)
      requires Valid() && toasts.Valid()
      modifies this, toasts
      ensures Valid() && toasts.Valid()
      ensures isInitialized == old(isInitialized)
      ensures file.None? ==>
        && avatarFile == old(avatarFile) && avatarPreview == old(avatarPreview)
        && toasts.toasts == old(toasts.toasts) && toasts.counter == old(toasts.counter)
      ensures file.Some? && CheckAvatar(file.value).Some? ==>
        && avatarFile == old(avatarFile) && avatarPreview == old(avatarPreview)
        && toasts.toasts == old(toasts.toasts) + [Issued(old(toasts.counter), AvatarErrorKey(CheckAvatar(file.value).value), Error)]
        && toasts.counter == old(toasts.counter) + 1
      ensures file.Some? && CheckAvatar(file.value).None? ==>
        && avatarFile == file && avatarPreview == Some(objectUrl)
        && toasts.toasts == old(toasts.toasts) && toasts.counter == old(toasts.counter)
    {
      if file.None? {
        return;
      }
      var check := CheckAvatar(file.value);
      if check.Some? {
        var _ := toasts.AddToast(AvatarErrorKey(check.value), Some(Error), None);
        return;
      }
      avatarPreview := Some(objectUrl);
      avatarFile := file;
    }

    /**
     * `onSuccess(updatedUser)`: a success toast, the signed-in user updated,
     * the avatar choice dropped, and the three fields reset to "".
     */
    method OnSuccess(updated: Auth.UserPatch, auth: Auth.AuthProvider, toasts: ToastProvider)
      requires Valid() && toasts.Valid()
      modifies this, form, auth, toasts
      ensures Valid() && toasts.Valid()
      ensures toasts.toasts == old(toasts.toasts) + [Issued(old(toasts.counter), ProfileUpdatedKey, Success)]
      ensures toasts.counter == old(toasts.counter) + 1
      ensures old(auth.user).Some? ==> auth.user == Some(Auth.Merge(old(auth.user).value, updated)) && auth.savedUser == auth.user
      ensures old(auth.user).None? ==> auth.user == None && auth.savedUser == old(auth.savedUser)
      ensures auth.token == old(auth.token) && auth.savedToken == old(auth.savedToken)
      ensures isInitialized == old(isInitialized)
      ensures avatarFile == None
      ensures updated.profileImage.Some? && updated.profileImage.value != "" ==>
        avatarPreview == Some(ImageUrl.GetImageUrl(ImageUrl.Str(updated.profileImage.value), ImageUrl.DefaultFallback))
      ensures !(updated.profileImage.Some? && updated.profileImage.value != "") ==> avatarPreview == old(avatarPreview)
      ensures form.values == old(form.values)[UsernameField := ""][EmailField := ""][DescriptionField := ""]
      ensures form.errors == old(form.errors)[UsernameField := ""][EmailField := ""][DescriptionField := ""]
      ensures form.touched == old(form.touched)
    {
      var _ := toasts.AddToast(ProfileUpdatedKey, Some(Success), None);
      auth.UpdateUser(updated);
      avatarFile := None;
      if updated.profileImage.Some? && updated.profileImage.value != "" {
        avatarPreview := Some(ImageUrl.GetImageUrl(ImageUrl.Str(updated.profileImage.value), ImageUrl.DefaultFallback));
      }
      form.SetFieldValue(UsernameField, "");
      form.SetFieldValue(EmailField, "");
      form.SetFieldValue(DescriptionField, "");
    }

    /** `onError(err)`: an error toast with the chosen message; the form is kept. */
    method OnError(err: RequestError, toasts: ToastProvider)
      requires toasts.Valid()
      modifies toasts
      ensures toasts.Valid()
      ensures toasts.toasts == old(toasts.toasts) + [Issued(old(toasts.counter), ProfileErrorMessage(err), Error)]
      ensures toasts.counter == old(toasts.counter) + 1
    {
      var _ := toasts.AddToast(ProfileErrorMessage(err), Some(Error), None);
    }
  }
}
