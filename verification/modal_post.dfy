/**
 * The "create post" dialog: a title limited to 50 characters, a description
 * limited to 200, an optional image file, ordered checks before submitting,
 * the request payload, and the update of the cached post list on success.
 * Messages are the translation keys the dialog passes to its translator.
 */
module ModalPost {
  import opened Wrappers
  import opened Text
  import opened Api
  import opened Toast
  import DescriptionTextArea

  const MaxTitleLength := 50
  const MaxDescriptionLength := 200
  const MaxFileSize := 10 * 1024 * 1024

  /** The checks of `handleCreatePost`, in the order they are made. */
  datatype PostError = TitleEmpty | TitleTooLong | DescriptionEmpty | DescriptionTooLong

  function PostErrorKey(e: PostError): string {
    match e
    case TitleEmpty => "modalPost.postTitleEmpty"
    case TitleTooLong => "modalPost.titleTooLong"
    case DescriptionEmpty => "modalPost.descriptionEmpty"
    case DescriptionTooLong => "modalPost.descriptionTooLong"
  }

  /** The first failing check of `handleCreatePost`, or `None` when the post is submitted. */
  function CheckPost(title: string, description: string): (r: Option<PostError>)
    ensures r == Some(TitleEmpty) <==> IsBlank(title)
    ensures r == Some(TitleTooLong) <==> !IsBlank(title) && |title| >= MaxTitleLength
    ensures r == Some(DescriptionEmpty) <==>
      !IsBlank(title) && |title| < MaxTitleLength && IsBlank(description)
    ensures r == Some(DescriptionTooLong) <==>
      !IsBlank(title) && |title| < MaxTitleLength && !IsBlank(description) && |description| >= MaxDescriptionLength
    ensures r == None <==>
      !IsBlank(title) && |title| < MaxTitleLength && !IsBlank(description) && |description| < MaxDescriptionLength
  {
    if IsBlank(title) then Some(TitleEmpty)
    else if |title| >= MaxTitleLength then Some(TitleTooLong)
    else if IsBlank(description) then Some(DescriptionEmpty)
    else if |description| >= MaxDescriptionLength then Some(DescriptionTooLong)
    else None
  }

  datatype FileError = InvalidFileType | FileTooLarge

  function FileErrorKey(e: FileError): string {
    match e
    case InvalidFileType => "modalPost.invalidFileType"
    case FileTooLarge => "modalPost.fileTooLarge"
  }

  /** The file check of `validateAndSetFile`: the type first (JPEG or PNG only), then the size. */
  function CheckFile(f: FileInfo): (r: Option<FileError>)
    ensures r == Some(InvalidFileType) <==> f.mime != "image/jpeg" && f.mime != "image/png"
    ensures r == Some(FileTooLarge) <==> (f.mime == "image/jpeg" || f.mime == "image/png") && f.size > MaxFileSize
    ensures r == None <==> (f.mime == "image/jpeg" || f.mime == "image/png") && f.size <= MaxFileSize
  {
    if f.mime != "image/jpeg" && f.mime != "image/png" then Some(InvalidFileType)
    else if f.size > MaxFileSize then Some(FileTooLarge)
    else None
  }

  /** Every accepted file has an `image/` type, so a selected file is always uploaded and previewed. */
  lemma AcceptedFileIsImage(f: FileInfo)
    requires CheckFile(f) == None
    ensures StartsWith(f.mime, "image/")
  {
    assert f.mime[..6] == "image/";
  }

  /** The body of `POST /api/posts`. */
  datatype PostData = PostData(title: string, content: string, image: Option<string>)

  const ImageUploadFailedKey := "modalPost.imageUploadFailed"

  /**
   * `mutationFn` up to the post request: the trimmed fields, plus the uploaded
   * image's URL when an `image/` file is selected; a failed upload aborts.
   */
  function BuildPayload(title: string, description: string, selected: Option<FileInfo>,
                        upload: Result<string, RequestError>): (r: Result<PostData, string>)
    ensures var uploads := selected.Some? && StartsWith(selected.value.mime, "image/");
      && (r.Err? <==> uploads && upload.Err?)
      && (r.Err? ==> r.error == ImageUploadFailedKey)
      && (r.Ok? ==> r.value.title == Trim(title) && r.value.content == Trim(description))
      && (r.Ok? ==> (r.value.image.Some? <==> uploads) && (uploads ==> r.value.image == Some(upload.value)))
  {
    var data := PostData(Trim(title), Trim(description), None);
    if selected.Some? && StartsWith(selected.value.mime, "image/") then
      match upload
      case Ok(url) => Ok(data.(image := Some(url)))
      case Err(_) => Err(ImageUploadFailedKey)
    else Ok(data)
  }

  /** A post as the server returns it and as the post list caches it. */
  datatype Post = Post(id: int, title: string, content: string, image: Option<string>)

  /** `{ ...createdPost, image: createdPost.image || null }`. */
  function Enhance(p: Post): (r: Post)
    ensures r.id == p.id && r.title == p.title && r.content == p.content
    ensures r.image.Some? <==> p.image.Some? && p.image.value != ""
    ensures r.image.Some? ==> r.image == p.image
  {
    p.(image := if p.image.Some? && p.image.value != "" then p.image else None)
  }

  /** The updater passed for the "posts" query: the new post first, then the cached posts unchanged. */
  function PrependPost(cached: Option<seq<Post>>, created: Post): (r: seq<Post>)
    ensures |r| == 1 + |cached.GetOr([])|
    ensures r[0] == Enhance(created)
    ensures r[1..] == cached.GetOr([])
    ensures cached.None? ==> r == [Enhance(created)]
  {
    match cached
    case None => [Enhance(created)]
    case Some(posts) => [Enhance(created)] + posts
  }

  const PostCreateErrorKey := "modalPost.postCreateError"

  /**
   * `onError`'s message: for an `AxiosError` with a response body, the server's
   * message or else the default key; for any other `Error`, including an
   * `AxiosError` without a body, the error's own message; otherwise the default.
   */
  function PostErrorMessage(err: RequestError): (m: string)
    ensures err.AxiosError? && err.data.Some? ==> m == ServerMessageOr(err, PostCreateErrorKey)
    ensures err.AxiosError? && err.data.None? ==> m == err.message
    ensures err.PlainError? ==> m == err.message
    ensures err.NotAnError? ==> m == PostCreateErrorKey
  {
    match err
    case AxiosError(message, data) =>
      if data.Some? then ServerMessageOr(err, PostCreateErrorKey) else message
    case PlainError(message) => message
    case NotAnError => PostCreateErrorKey
  }

  const PostCreatedKey := "modalPost.postCreated"

  class ModalPostForm {
    var postTitle: string
    var description: string
    var selectedFile: Option<FileInfo>
    var fileError: string
    var previewUrl: string

    ghost predicate Valid()
      reads this
    {
      && |postTitle| <= MaxTitleLength
      && |description| <= MaxDescriptionLength
      && (selectedFile.Some? ==> CheckFile(selectedFile.value) == None)
    }

    constructor ()
      ensures Valid()
      ensures postTitle == "" && description == "" && selectedFile == None
      ensures fileError == "" && previewUrl == ""
    {
      postTitle, description, selectedFile, fileError, previewUrl := "", "", None, "", "";
    }

    /** `handleChange` of the title input: the title changes only while it fits in 50 characters. */
    method HandleTitleChange(newTitle: string)
      requires Valid()
      modifies this
      ensures Valid()
      ensures postTitle == if |newTitle| <= MaxTitleLength then newTitle else old(postTitle)
      ensures description == old(description) && selectedFile == old(selectedFile)
      ensures fileError == old(fileError) && previewUrl == old(previewUrl)
    {
      if |newTitle| <= MaxTitleLength {
        postTitle := newTitle;
      }
    }

    /** An edit of the description, through the text area's 200-character gate. */
    method HandleDescriptionChange(newValue: string)
      requires Valid()
      modifies this
      ensures Valid()
      ensures description == if |newValue| <= MaxDescriptionLength then newValue else old(description)
      ensures postTitle == old(postTitle) && selectedFile == old(selectedFile)
      ensures fileError == old(fileError) && previewUrl == old(previewUrl)
    {
      var forwarded := DescriptionTextArea.HandleChange(newValue, MaxDescriptionLength);
      if forwarded.Some? {
        description := forwarded.value;
      }
    }

    /**
     * `validateAndSetFile(file)`, with `objectUrl` the preview URL the browser
     * would create: a rejected file sets the error and raises a toast; an
     * accepted one replaces the selection and clears the error.
     */
    method ValidateAndSetFile(file: FileInfo, objectUrl: string, toasts: ToastProvider)
      requires Valid() && toasts.Valid()
      modifies this, toasts
      ensures Valid() && toasts.Valid()
      ensures postTitle == old(postTitle) && description == old(description)
      ensures CheckFile(file).Some? ==>
        && fileError == FileErrorKey(CheckFile(file).value)
        && selectedFile == old(selectedFile) && previewUrl == old(previewUrl)
        && toasts.toasts == old(toasts.toasts) + [Issued(old(toasts.counter), fileError, Error)]
        && toasts.counter == old(toasts.counter) + 1
      ensures CheckFile(file).None? ==>
        && fileError == "" && selectedFile == Some(file) && previewUrl == objectUrl
        && toasts.toasts == old(toasts.toasts) && toasts.counter == old(toasts.counter)
    {
      var check := CheckFile(file);
      if check.Some? {
        var msg := FileErrorKey(check.value);
        fileError := msg;
        var _ := toasts.AddToast(msg, Some(Error), None);
        return;
      }
      fileError := "";
      selectedFile := Some(file);
      AcceptedFileIsImage(file);
      previewUrl := if StartsWith(file.mime, "image/") then objectUrl else "";
    }

    /**
     * `handleCreatePost`: the first failing check raises its toast and stops;
     * `submitted` is whether the mutation is started.
     */
    method HandleCreatePost(toasts: ToastProvider) returns (submitted: bool)
      requires toasts.Valid()
      modifies toasts
      ensures toasts.Valid()
      ensures submitted <==> CheckPost(postTitle, description) == None
      ensures submitted ==> toasts.toasts == old(toasts.toasts) && toasts.counter == old(toasts.counter)
      ensures !submitted ==>
        && toasts.toasts == old(toasts.toasts)
             + [Issued(old(toasts.counter), PostErrorKey(CheckPost(postTitle, description).value), Error)]
        && toasts.counter == old(toasts.counter) + 1
    {
      var check := CheckPost(postTitle, description);
      submitted := check.None?;
      if !submitted {
        var key := PostErrorKey(check.value);
        var _ := toasts.AddToast(key, Some(Error), None);
      }
    }

    /** `onSuccess(createdPost)`: a success toast, the post prepended to the cache, and the form reset. */
    method OnSuccess(created: Post, cached: Option<seq<Post>>, toasts: ToastProvider) returns (newCache: seq<Post>)
      requires toasts.Valid()
      modifies this, toasts
      ensures Valid() && toasts.Valid()
      ensures newCache == PrependPost(cached, created)
      ensures postTitle == "" && description == "" && selectedFile == None
      ensures previewUrl == "" && fileError == ""
      ensures toasts.toasts == old(toasts.toasts) + [Issued(old(toasts.counter), PostCreatedKey, Success)]
      ensures toasts.counter == old(toasts.counter) + 1
    {
      var _ := toasts.AddToast(PostCreatedKey, Some(Success), None);
      newCache := PrependPost(cached, created);
      postTitle := "";
      description := "";
      selectedFile := None;
      previewUrl := "";
      fileError := "";
    }

    /** `onError(err)`: an error toast with the chosen message; the form is kept. */
    method OnError(err: RequestError, toasts: ToastProvider)
      requires toasts.Valid()
      modifies toasts
      ensures toasts.Valid()
      ensures toasts.toasts == old(toasts.toasts) + [Issued(old(toasts.counter), PostErrorMessage(err), Error)]
      ensures toasts.counter == old(toasts.counter) + 1
    {
      var _ := toasts.AddToast(PostErrorMessage(err), Some(Error), None);
    }
  }

  /**
   * A 50-character title gets past the input but is refused on submit: typing
   * stores it, and `handleCreatePost` then reports it as too long.
   */
  method FiftyCharacterTitle(title: string, description: string, toasts: ToastProvider) returns (submitted: bool)
    requires |title| == MaxTitleLength && !IsBlank(title) && toasts.Valid()
    modifies toasts
    ensures !submitted
    ensures toasts.toasts == old(toasts.toasts) + [Issued(old(toasts.counter), PostErrorKey(TitleTooLong), Error)]
    ensures toasts.counter == old(toasts.counter) + 1
  {
    var form := new ModalPostForm();
    form.HandleTitleChange(title);
    form.HandleDescriptionChange(description);
    submitted := form.HandleCreatePost(toasts);
  }
}
