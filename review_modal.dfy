/**
 * frontend/src/components/ReviewModal: the review form state, its validation gate, and what a
 * submission does to the error, the submitting flag and the modal.
 */
module ReviewModal {
  import opened Wrappers
  import opened Text
  import opened ShopTypes
  import NextAuth
  import ReviewActions

  const Required := "タイトルと本文は必須です。"
  const PostFailed := "口コミの投稿に失敗しました。再度お試しください。"

  /** The gate: both title and content must have something besides whitespace. */
  predicate Complete(title: string, content: string)
  {
    !AllWhitespace(title) && !AllWhitespace(content)
  }

  /** The gate is handleSubmit's `!title.trim() || !content.trim()` test, negated. */
  lemma CompleteIff(title: string, content: string)
    ensures Complete(title, content) <==> Trim(title) != "" && Trim(content) != ""
  {
    TrimEmptyIff(title);
    TrimEmptyIff(content);
  }

  /** What the modal hands to createReview: the untrimmed texts and the image list. */
  function Submitted(title: string, content: string, images: seq<File>): ReviewActions.ReviewData
  {
    ReviewActions.ReviewData(title, content, Some(images))
  }

  class ReviewModalState {
    var title: string
    var content: string
    var images: seq<File>
    var error: string
    var isSubmitting: bool
    /** Set once the modal has called its onClose. */
    var closed: bool

    constructor ()
      ensures title == "" && content == "" && images == [] && error == "" && !isSubmitting && !closed
    {
      title := "";
      content := "";
      images := [];
      error := "";
      isSubmitting := false;
      closed := false;
    }

    /** handleImageUpload: a file list replaces the images; no list changes nothing. */
    method HandleImageUpload(files: Option<seq<File>>)
      modifies this
      ensures files.Some? ==> images == files.value
      ensures files.None? ==> images == old(images)
      ensures title == old(title) && content == old(content) && error == old(error)
      ensures isSubmitting == old(isSubmitting) && closed == old(closed)
    {
      if files.Some? {
        images := files.value;
      }
    }

    /**
     * handleSubmit. An incomplete form only sets the error: nothing is sent and isSubmitting is not
     * touched. Otherwise the untrimmed title and content go to createReview, whose post succeeds
     * when `posted` says so; success closes the modal, any failure sets the failure message, and
     * isSubmitting ends false.
     */
    method HandleSubmit(apiUrl: Option<string>, session: Option<NextAuth.SessionValue>, shopId: int,
                        posted: ReviewActions.ReviewRequest -> bool)
      returns (sent: Option<ReviewActions.ReviewRequest>)
      modifies this
      ensures title == old(title) && content == old(content) && images == old(images)
      ensures !Complete(title, content) ==>
        sent.None? && error == Required && isSubmitting == old(isSubmitting) && closed == old(closed)
      ensures Complete(title, content) ==> !isSubmitting
      ensures Complete(title, content) ==>
        sent == (if session.Some? then Some(ReviewActions.PostRequest(apiUrl, session.value, shopId, Submitted(title, content, images)))
                 else None)
      ensures Complete(title, content) && sent.Some? && posted(sent.value) ==> closed && error == ""
      ensures Complete(title, content) && !(sent.Some? && posted(sent.value)) ==> error == PostFailed && closed == old(closed)
    {
      var complete := Complete(title, content);
      if !complete {
        error := Required;
        return None;
      }
      isSubmitting := true;
      error := "";
      var r := ReviewActions.CreateReview(apiUrl, session, shopId, Submitted(title, content, images));
      if r.Failure? {
        sent := None;
        error := PostFailed;
      } else {
        sent := Some(r.value);
        if posted(r.value) {
          closed := true;
        } else {
          error := PostFailed;
        }
      }
      isSubmitting := false;
    }
  }
}
