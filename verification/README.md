# Module_10 front end: a Dafny model of its logic

This project models the logic of a React/TypeScript social-network front end. That logic has these parts:

- **Validators:** e-mail, password and username.
- **Image URLs:** the normaliser that turns whatever the API returns for an image into a loadable URL.
- **`useForm`:** the form-state hook.
- **Providers:** toasts, authentication and theme.
- **Components:**
  - the length-gated description box;
  - the comment box;
  - the "create post" dialog;
  - the profile editor;
  - the statistics page.

The providers and the stateful parts of the components are classes with `modifies` frames. Everything that only computes a value is a datatype, a function or a lemma.

The model has no access to the browser or the server. Instead:

- each server answer is an input of type `Result<T, RequestError>`;
- `localStorage` and the `data-theme` attribute are fields;
- the object URL that `URL.createObjectURL` would return is a string parameter.

Messages the components pass to their translator are modelled as their translation keys. The validators return an error value, and `Validators.Message` gives the English text of each one.

JavaScript strings are sequences of characters. `trim()` and the regular-expression class `\s` use the same ECMAScript white-space set (`Text.IsWhitespace`).

Two models of the e-mail regular expression `^[^\s@]+@[^\s@]+\.[^\s@]+$` are proved equivalent:

- an executable check, which finds the first `@` and then looks for a dot strictly inside the domain;
- the regular expression's language, stated as the existence of an `@` and a `.` that split the string into three non-empty `[^\s@]` runs.

Module map (one Dafny file per source file, plus shared modules):

| Dafny module | source |
|---|---|
| `Wrappers`, `Text`, `Api` | shared: `Option`/`Result`, white space and `trim`, request errors |
| `Validators` | src/utils/validators.ts |
| `ImageUrl` | src/utils/imageUrl.ts |
| `UseForm` | src/utils/useForm.ts |
| `Toast` | src/context/ToastProvider.tsx |
| `Auth` | src/context/AuthProvider.tsx |
| `Theme` | src/context/ThemeProvider.tsx |
| `DescriptionTextArea` | src/components/DescriptionTextArea/DescriptionTextArea.tsx |
| `CommentBox` | src/components/Comment/Comment.tsx |
| `ModalPost` | src/components/ModalPost/ModalPost.tsx |
| `ProfileInfo` | src/components/ProfileInfo/ProfileInfo.tsx |
| `Statistics` | src/components/Statistics/Statistics.tsx |

One detail is modelled exactly as the code has it: `onError` in the post dialog (src/components/ModalPost/ModalPost.tsx:92-100). There, an `AxiosError` that has a response body without a `message` yields the default key, not the error's own message. The reason is that the `else if (err instanceof Error)` branch is reached only when there is no response body. The profile editor's `onError` is different: it tests `data?.message` in the first condition, so the same error yields the error's own message there. Both behaviours are modelled as written.

## Model

| member | source | states |
|---|---|---|
| Text.TrimStartDropsLeading | src/utils/validators.ts:2 | trimming the start drops exactly the leading run of white space: the result is a suffix, everything dropped is white space, and the result does not start with white space |
| Text.TrimEndDropsTrailing | src/utils/validators.ts:2 | trimming the end drops exactly the trailing run of white space, symmetrically |
| Text.Trim | src/utils/validators.ts:7 | `value.trim()` is a piece of the value with only white space before and after it, at most as long as the value, and empty or starting and ending with a non-white-space character |
| Text.IsBlank | src/utils/validators.ts:2 | `!value.trim()`: the trimmed value is empty (characterised by BlankIffAllWhitespace) |
| Text.BlankIffAllWhitespace | src/utils/validators.ts:2-4 | `!value.trim()` holds exactly when every character is white space |
| Text.TrimIdempotent | src/utils/validators.ts:7 | trimming twice is trimming once |
| Validators.Message | src/utils/validators.ts:1-44 | every error has a non-empty message, so "" is reserved for success |
| Validators.IndexOfAt | src/utils/validators.ts:6 | the result is the position of the first '@', or the length when there is none |
| Validators.FirstAtIndex | src/utils/validators.ts:6 | an '@' preceded only by `[^\s@]` characters is the first '@' |
| Validators.EmailShapeIsRegex | src/utils/validators.ts:6-7 | the explicit e-mail check accepts exactly the strings the regular expression matches |
| Validators.ValidateEmail | src/utils/validators.ts:1-12 | "required" iff the value is blank; valid iff non-blank and the trimmed value matches the regular expression; "not valid" otherwise |
| Validators.ValidateEmailIgnoresPadding | src/utils/validators.ts:2-7 | the result for a value equals the result for its trimmed value |
| Validators.ValidatePassword | src/utils/validators.ts:14-24 | "required" iff empty, the minimum-length error iff 1 to 5 characters, valid iff at least 6; no trimming |
| Validators.ValidateUsername | src/utils/validators.ts:26-44 | a blank value is valid; otherwise the checks run in order (leading '@', length at least 3, no space) and the first to fail decides; valid iff all three hold |
| Validators.EmailWithoutDotRejected | src/utils/validators.ts:6-8 | "missing@domain" is not valid |
| Validators.EmailWithoutLocalPartRejected | src/utils/validators.ts:6-8 | "@nodomain.com" is not valid |
| Validators.ShortEmailAccepted | src/utils/validators.ts:6-11 | "a@b.co" is valid |
| Validators.UsernameWithSpaceRejected | src/utils/validators.ts:31-41 | "@ user" passes the first two checks and fails on the space |
| Validators.LoneAtRejected | src/utils/validators.ts:31-37 | "@" fails the length check |
| ImageUrl.StripLeadingSlashes | src/utils/imageUrl.ts:14 | the result is the input minus its leading run of '/', and does not start with '/' |
| ImageUrl.FirstPathIndex | src/utils/imageUrl.ts:31-37 | the index of the first key holding a non-empty string; no earlier key holds one |
| ImageUrl.GetImageUrl | src/utils/imageUrl.ts:1-41 | null, "" and non-string, non-object values give the fallback; absolute http(s) URLs in any letter case pass through; other strings are stripped and prefixed with "/Module_10/"; objects use the first key in priority order, else the fallback; a non-empty fallback gives a non-empty result |
| ImageUrl.ResultShape | src/utils/imageUrl.ts:1-41 | every result is the fallback, an absolute URL passed through, or "/Module_10/" followed by text that does not start with '/' |
| ImageUrl.ObjectUrlIsPrefixed | src/utils/imageUrl.ts:18-37 | a path found in an object is prefixed even when it is an absolute URL, which the same string on its own would not be |
| UseForm.Form.constructor | src/utils/useForm.ts:5-8 | the given values, no errors, nothing touched |
| UseForm.Form.SetFieldValue | src/utils/useForm.ts:10-13 | stores the value and clears that field's error; every other value and error, and all touched flags, are unchanged |
| UseForm.Form.SetFieldError | src/utils/useForm.ts:15-17 | only that field's error changes |
| UseForm.Form.TouchField | src/utils/useForm.ts:19-21 | only that field's flag is set; untouched fields stay absent |
| UseForm.Form.SetErrors | src/utils/useForm.ts:30 | the error record is replaced and nothing else changes |
| UseForm.SetValueClearsError | src/utils/useForm.ts:10-17 | setting a value after an error on the same field leaves no error |
| UseForm.TouchTwiceIsTouchOnce | src/utils/useForm.ts:19-21 | touching twice gives the same flags as touching once, and other fields stay absent |
| Toast.Without | src/context/ToastProvider.tsx:54 | the filter keeps exactly the toasts whose id differs |
| Toast.WithoutKeepsOrder | src/context/ToastProvider.tsx:53-55 | removal keeps ids strictly increasing |
| Toast.WithoutAbsentId | src/context/ToastProvider.tsx:53-55 | removing an id no toast carries leaves the list unchanged |
| Toast.RemoveTwiceIsRemoveOnce | src/context/ToastProvider.tsx:46-55 | removal is idempotent, so a timer firing after a manual removal changes nothing |
| Toast.RemoveDropsOne | src/context/ToastProvider.tsx:53-55 | with increasing ids, removing a present id drops exactly one toast |
| Toast.StyleKey | src/context/ToastProvider.tsx:62 | the style key is "toast" followed by the type with its first letter upper-cased, and "toastSuccess" without a type (values pinned by StyleKeys) |
| Toast.StyleKeys | src/context/ToastProvider.tsx:62 | the four types map to four style keys, and a missing type is styled as success |
| Toast.ToastProvider.constructor | src/context/ToastProvider.tsx:35-38 | counter 0, no toasts |
| Toast.ToastProvider.AddToast | src/context/ToastProvider.tsx:40-51 | appends exactly one toast under the old counter value, with "success" and 6000 ms as defaults; the counter is incremented; earlier toasts keep their content and order, and ids stay strictly increasing |
| Toast.ToastProvider.RemoveToast | src/context/ToastProvider.tsx:53-55 | the list becomes the filtered list, the counter is unchanged, and no toast with that id remains |
| Toast.AddTwice | src/context/ToastProvider.tsx:43 | two adds in a row get consecutive, distinct ids |
| Api.ServerMessageOr | src/context/AuthProvider.tsx:50-57 | the server's non-empty message if there is one, otherwise the default |
| Auth.Overlay | src/context/AuthProvider.tsx:97 | a key the patch carries wins; otherwise the user's value is kept |
| Auth.Merge | src/context/AuthProvider.tsx:97 | `{ ...prev, ...data }` field by field |
| Auth.MergeLaws | src/context/AuthProvider.tsx:97 | an empty patch changes nothing, and applying a patch twice is applying it once |
| Auth.AuthProvider.IsAuthenticated | src/context/AuthProvider.tsx:105 | `!!user && !!token`: a user is set and the token is set and non-empty; Login, Logout and UpdateUser state how they affect it |
| Auth.AuthProvider.constructor | src/context/AuthProvider.tsx:29-36 | the state is read from storage, and an empty stored token counts as none |
| Auth.AuthProvider.Login | src/context/AuthProvider.tsx:38-61 | on success, token and user are set in state and storage alike, and the user is authenticated iff the returned token is non-empty; on failure nothing changes, and the error is the server's message or "Login eerror" |
| Auth.AuthProvider.Signup | src/context/AuthProvider.tsx:63-79 | returns the reply's body or fails with the server's message or "Registration error"; it changes no state |
| Auth.AuthProvider.Logout | src/context/AuthProvider.tsx:81-90 | clears token and user in state and storage; afterwards the user is not authenticated |
| Auth.AuthProvider.UpdateUser | src/context/AuthProvider.tsx:92-101 | without a user nothing changes; otherwise the user becomes the merge and storage holds it; the token and authentication are unchanged |
| Theme.Flip | src/context/ThemeProvider.tsx:49 | toggling always changes the theme |
| Theme.FromStored | src/context/ThemeProvider.tsx:27 | light iff the stored value is exactly "light" |
| Theme.ThemeProvider.constructor | src/context/ThemeProvider.tsx:21 | no theme before the mount effect, so nothing is rendered |
| Theme.ThemeProvider.Initialize | src/context/ThemeProvider.tsx:23-39 | the theme is chosen from storage; the attribute shows it; storage is written only when nothing or "" was stored |
| Theme.ThemeProvider.ToggleTheme | src/context/ThemeProvider.tsx:41-57 | fails with "Theme is not found" and changes nothing while unset; otherwise it flips the theme and writes the new one to storage and the attribute |
| Theme.ToggleTwice | src/context/ThemeProvider.tsx:41-57 | two toggles restore the theme, with storage and the attribute showing it |
| DescriptionTextArea.HandleChange | src/components/DescriptionTextArea/DescriptionTextArea.tsx:35-40 | an edit is forwarded, unchanged, iff it fits in `maxLength` |
| DescriptionTextArea.Forwarded | src/components/DescriptionTextArea/DescriptionTextArea.tsx:35-40 | over a series of edits, exactly the edits that fit are reported, never more reports than edits |
| DescriptionTextArea.ForwardedAppend | src/components/DescriptionTextArea/DescriptionTextArea.tsx:35-40 | one more edit appends its value to the reports iff it fits, so reports keep the edits' order and repetitions |
| DescriptionTextArea.LimitBoundary | src/components/DescriptionTextArea/DescriptionTextArea.tsx:37 | exactly `maxLength` characters are accepted; one more is not |
| DescriptionTextArea.Render | src/components/DescriptionTextArea/DescriptionTextArea.tsx:32-79 | the error style iff the length equals `maxLength`; the info line iff the value is not blank, reading "limit reached" at the limit and "max chars" otherwise; the placeholder is always the translation key |
| CommentBox.Comment.constructor | src/components/Comment/Comment.tsx:9 | an empty description |
| CommentBox.Comment.Edit | src/components/Comment/Comment.tsx:34-38 | an edit is stored iff it fits in 200 characters |
| CommentBox.Comment.HandleSubmit | src/components/Comment/Comment.tsx:12-25 | blank: one error toast, and the description is kept; exactly 200 characters: nothing happens; otherwise one success toast, and the description is cleared; the toast counter advances once per toast |
| ModalPost.CheckPost | src/components/ModalPost/ModalPost.tsx:185-207 | the four checks in order; the first failure is reported; a post is submitted iff all pass |
| ModalPost.CheckFile | src/components/ModalPost/ModalPost.tsx:124-144 | type (JPEG or PNG) first, then size (at most 10 MiB) |
| ModalPost.AcceptedFileIsImage | src/components/ModalPost/ModalPost.tsx:124-155 | every accepted file has an `image/` type, so it is previewed and uploaded |
| ModalPost.BuildPayload | src/components/ModalPost/ModalPost.tsx:42-60 | trimmed title and content; an image only for a selected `image/` file whose upload succeeded; a failed upload aborts with its key |
| ModalPost.Enhance | src/components/ModalPost/ModalPost.tsx:65-68 | a missing or empty image becomes null, and the rest is kept |
| ModalPost.PrependPost | src/components/ModalPost/ModalPost.tsx:70-78 | the new post first, followed by the old cache unchanged and in order; `[new]` when there was no cache |
| ModalPost.PostErrorMessage | src/components/ModalPost/ModalPost.tsx:89-100 | an `AxiosError` with a body gives the server's message or the default; any other `Error` gives its own message; anything else gives the default |
| ModalPost.ModalPostForm.constructor | src/components/ModalPost/ModalPost.tsx:23-27 | empty title, description, preview and error, and no file |
| ModalPost.ModalPostForm.HandleTitleChange | src/components/ModalPost/ModalPost.tsx:178-183 | the title changes iff the new one fits in 50 characters, and nothing else changes |
| ModalPost.ModalPostForm.HandleDescriptionChange | src/components/ModalPost/ModalPost.tsx:257-267 | the description changes iff it fits in 200 characters |
| ModalPost.ModalPostForm.ValidateAndSetFile | src/components/ModalPost/ModalPost.tsx:124-155 | a rejected file sets the error, raises one error toast and keeps the selection; an accepted file clears the error and becomes the selection, with its preview |
| ModalPost.ModalPostForm.HandleCreatePost | src/components/ModalPost/ModalPost.tsx:185-207 | submitted iff every check passes; otherwise exactly one toast with the first failure's key |
| ModalPost.ModalPostForm.OnSuccess | src/components/ModalPost/ModalPost.tsx:62-87 | one success toast; the cache becomes the prepended list; all five fields reset |
| ModalPost.ModalPostForm.OnError | src/components/ModalPost/ModalPost.tsx:89-103 | one error toast with the chosen message |
| ModalPost.FiftyCharacterTitle | src/components/ModalPost/ModalPost.tsx:178-194 | a 50-character title is accepted by the input and then refused on submit with the "too long" toast |
| ProfileInfo.TrimmedIfSet | src/components/ProfileInfo/ProfileInfo.tsx:100-108 | a field is sent, trimmed, iff it is not blank |
| ProfileInfo.BuildUpdate | src/components/ProfileInfo/ProfileInfo.tsx:92-123 | only non-blank fields, trimmed; the avatar URL iff an avatar is chosen and uploaded; a failed upload aborts with its key |
| ProfileInfo.HasChanges | src/components/ProfileInfo/ProfileInfo.tsx:76-80 | some field is non-blank or an avatar is chosen (related to the update by UpdateIsEmptyIffNoChanges) |
| ProfileInfo.UpdateIsEmptyIffNoChanges | src/components/ProfileInfo/ProfileInfo.tsx:76-123 | without changes the update is empty; with changes it is not empty, or the upload failed |
| ProfileInfo.EmailValidatorError | src/components/ProfileInfo/ProfileInfo.tsx:206-212 | a blank e-mail shows no message; a non-blank one shows none iff it matches the regular expression |
| ProfileInfo.UsernameValidatorError | src/components/ProfileInfo/ProfileInfo.tsx:214-220 | a blank username shows no message; a non-blank one shows none iff it starts with '@', has at least 3 characters and no space |
| ProfileInfo.EmailErrorOnSubmit | src/components/ProfileInfo/ProfileInfo.tsx:201-236 | at 50 characters the limit key overrides the validator; otherwise the validator's verdict on non-blank input |
| ProfileInfo.UsernameErrorOnSubmit | src/components/ProfileInfo/ProfileInfo.tsx:202-228 | at 50 characters the limit key overrides the validator; otherwise the validator's verdict on non-blank input |
| ProfileInfo.SubmitBlocked | src/components/ProfileInfo/ProfileInfo.tsx:204-242 | `hasError` ends true: an invalid non-blank e-mail or username, or a username, e-mail or description at its limit |
| ProfileInfo.BlockedIffErrorShown | src/components/ProfileInfo/ProfileInfo.tsx:198-247 | a submit is blocked iff an error message is left or the description is at 200 characters, which shows none |
| ProfileInfo.CheckAvatar | src/components/ProfileInfo/ProfileInfo.tsx:166-182 | type (JPEG, PNG or SVG) first, then size (at most 10 MiB) |
| ProfileInfo.ProfileErrorMessage | src/components/ProfileInfo/ProfileInfo.tsx:148-159 | the server's non-empty message; else any `Error`'s own message; else the default key |
| ProfileInfo.PhasesCompose | src/components/ProfileInfo/ProfileInfo.tsx:201-236 | the validator phase followed by the length phase leaves, per field, the length message if any, else the validator's |
| ProfileInfo.StoredImage | src/components/ProfileInfo/ProfileInfo.tsx:69 | an avatar counts as set only when it is a non-empty string |
| ProfileInfo.AvatarSource | src/components/ProfileInfo/ProfileInfo.tsx:283 | the preview if set; else the user's stored avatar through the normaliser; else "avatar.png"; never empty |
| ProfileInfo.ProfileEditor.constructor | src/components/ProfileInfo/ProfileInfo.tsx:36-45 | three empty fields, no errors, no avatar, not initialised |
| ProfileInfo.ProfileEditor.InitializeAvatar | src/components/ProfileInfo/ProfileInfo.tsx:63-74 | on its first run, shows the stored avatar of the profile (else of the signed-in user); later runs change nothing |
| ProfileInfo.ProfileEditor.HandleChangeText | src/components/ProfileInfo/ProfileInfo.tsx:254-271 | the value is stored iff it fits in 50 characters; the field's error is cleared either way; other errors are kept |
| ProfileInfo.ProfileEditor.HandleDescriptionChange | src/components/ProfileInfo/ProfileInfo.tsx:366-371 | the description is stored iff it fits in 200 characters, and then its error is cleared; other errors and the touched flags are kept |
| ProfileInfo.ProfileEditor.ShowValidatorErrors | src/components/ProfileInfo/ProfileInfo.tsx:201-220 | both errors are cleared, then set to each non-blank field's validator message; fails iff a validator does |
| ProfileInfo.ProfileEditor.ShowLengthErrors | src/components/ProfileInfo/ProfileInfo.tsx:222-236 | a field at 50 characters gets its limit key; fails iff one is at the limit |
| ProfileInfo.ProfileEditor.HandleSubmit | src/components/ProfileInfo/ProfileInfo.tsx:198-247 | the values are kept; each error slot ends as its on-submit error; the update is issued iff the submit is not blocked |
| ProfileInfo.ProfileEditor.HandleFileChange | src/components/ProfileInfo/ProfileInfo.tsx:166-188 | no file: nothing; rejected: one error toast (the toast counter advances by one), and the avatar is kept; accepted: it becomes the avatar, with its preview; the initialised flag is kept |
| ProfileInfo.ProfileEditor.OnSuccess | src/components/ProfileInfo/ProfileInfo.tsx:125-146 | one success toast; the signed-in user is merged with the reply in state and storage, the token in both is kept, and without a user nothing of it changes; no avatar file; the preview follows a returned image; all three fields are reset with no errors; the touched flags and the initialised flag are kept |
| ProfileInfo.ProfileEditor.OnError | src/components/ProfileInfo/ProfileInfo.tsx:148-159 | one error toast with the chosen message |
| Statistics.UserPosts | src/components/Statistics/Statistics.tsx:26 | exactly the posts whose author is the signed-in user; never more than all posts |
| Statistics.UserPostsMultiplicity | src/components/Statistics/Statistics.tsx:26 | the filter keeps each owned post as many times as the list holds it and drops every other post |
| Statistics.PostCount | src/components/Statistics/Statistics.tsx:26 | the "Posts" card: the length of the filtered list (pinned by PostCountIsOwnedCount) |
| Statistics.PostCountIsOwnedCount | src/components/Statistics/Statistics.tsx:26 | the post count equals the number of posts whose author is the user, duplicates included |
| Statistics.LikeCount | src/components/Statistics/Statistics.tsx:33-35 | the "Likes" card: the left fold of likes over the filtered list (pinned by LikeCountIsOwnedLikes) |
| Statistics.Counted | src/components/Statistics/Statistics.tsx:14-17 | whether one comment passes the filter (characterised by CountedIffOwnedPost) |
| Statistics.CommentCount | src/components/Statistics/Statistics.tsx:14-18 | the "Comments" card: the number of comments that are counted |
| Statistics.LikeCountIsOwnedLikes | src/components/Statistics/Statistics.tsx:33-35 | the like total equals the sum of likes over the posts the user owns |
| Statistics.CountedIffOwnedPost | src/components/Statistics/Statistics.tsx:14-18 | a comment counts iff its `postId` indexes a post of the user's; an out-of-range index never counts |
| Statistics.CommentCountBounded | src/components/Statistics/Statistics.tsx:14-18 | the comment count is at most the number of comments |
| Statistics.NoUserNoStatistics | src/components/Statistics/Statistics.tsx:14-35 | without a signed-in user all three counts are 0 |
| Statistics.NoPostsNoStatistics | src/components/Statistics/Statistics.tsx:14-35 | a user with no posts has 0 likes and 0 comments |
| Statistics.StatisticsView.constructor | src/components/Statistics/Statistics.tsx:12 | the page opens on the table view |
| Statistics.StatisticsView.Caption | src/components/Statistics/Statistics.tsx:52 | the caption reads "Chart view" iff the chart is shown |
| Statistics.StatisticsView.Toggle | src/components/Statistics/Statistics.tsx:50 | each toggle flips the view |
| Statistics.ToggleTwiceShowsTable | src/components/Statistics/Statistics.tsx:12-50 | two toggles return to the table view |

## Left out

- Rendering, CSS class names, focus state and layout. The only visual rules kept are the toast style key, the text area's info line and error style, the statistics caption and the avatar `src`.
- Network requests, `FormData` uploads and the React Query cache. Request outcomes are parameters, and only the updater passed to `setQueryData` for posts is modelled. The profile editor's `setQueryData`/`invalidateQueries` on "me" are left out, as are the `isPending` flags that disable inputs.
- `setTimeout` toast expiry. Only the removal it performs is modelled (`RemoveToast`). The scheduling itself is not.
- `URL.createObjectURL` is a string parameter, and `URL.revokeObjectURL` is left out (it frees browser memory and changes no modelled state).
- `onClose`, body-scroll locking, drag-and-drop event plumbing and `handleLogout`'s navigation. `handleLogout` itself is `Auth.AuthProvider.Logout`.
- JSON serialisation of the stored user. Storage holds the user value directly.
- A patch key set explicitly to `undefined` (it would overwrite a field with `undefined`). A patch models only present or absent keys.
- React batching and stale closures. `toggleTheme` reads the theme of the last render; the model reads the current field, which is the same value when toggles are separate events.
- Toast.ToastProvider: the source's id counter is module-level and shared by every provider instance. The model gives each provider its own counter, which is the same for the single provider the application mounts.
- Lengths are counted in characters, not UTF-16 code units. Characters outside the Basic Multilingual Plane therefore count once instead of twice.
- The translator `t`. Component messages are their translation keys, and the interpolated `max` values are not modelled.
- The statistics page's mock post and comment lists are parameters, and its chart data and "+40% per month" captions are not modelled.
- A regular-expression engine. The e-mail pattern is modelled by its language over characters (`Validators.MatchesEmailRegex`).
