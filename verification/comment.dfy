/**
 * The comment box: a description edited through the length-gated text area
 * (200 characters) and a submit button that reports the outcome as a toast.
 */
module CommentBox {
  import opened Wrappers
  import opened Text
  import opened Toast
  import DescriptionTextArea

  const MaxCommentLength := 200
  const EmptyMessage := "Comment cannot be empty"
  const AddedMessage := "Comment added successfully"

  class Comment {
    var description: string

    ghost predicate Valid()
      reads this
    {
      |description| <= MaxCommentLength
    }

    constructor ()
      ensures Valid() && description == ""
    {
      description := "";
    }

    /** An edit in the text area: stored only if it fits in 200 characters. */
    method Edit(newValue: string)
      requires Valid()
      modifies this
      ensures Valid()
      ensures description == if |newValue| <= MaxCommentLength then newValue else old(description)
    {
      var forwarded := DescriptionTextArea.HandleChange(newValue, MaxCommentLength);
      if forwarded.Some? {
        description := forwarded.value;
      }
    }

    /**
     * `handleSubmit`: an error toast for a blank comment, nothing at all at
     * exactly 200 characters, otherwise a success toast and a cleared box.
     */
    method HandleSubmit(toasts: ToastProvider)
      requires Valid() && toasts.Valid()
      modifies this, toasts
      ensures Valid() && toasts.Valid()
      ensures IsBlank(old(description)) ==>
        && description == old(description)
        && toasts.toasts == old(toasts.toasts) + [Issued(old(toasts.counter), EmptyMessage, Error)]
        && toasts.counter == old(toasts.counter) + 1
      ensures !IsBlank(old(description)) && |old(description)| == MaxCommentLength ==>
        && description == old(description)
        && toasts.toasts == old(toasts.toasts) && toasts.counter == old(toasts.counter)
      ensures !IsBlank(old(description)) && |old(description)| != MaxCommentLength ==>
        && description == ""
        && toasts.toasts == old(toasts.toasts) + [Issued(old(toasts.counter), AddedMessage, Success)]
        && toasts.counter == old(toasts.counter) + 1
      ensures |old(toasts.toasts)| <= |toasts.toasts| <= |old(toasts.toasts)| + 1
    {
      if IsBlank(description) {
        var _ := toasts.AddToast(EmptyMessage, Some(Error), None);
        return;
      }
      if |description| == MaxCommentLength {
        return;
      }
      var _ := toasts.AddToast(AddedMessage, Some(Success), None);
      description := "";
    }
  }
}
