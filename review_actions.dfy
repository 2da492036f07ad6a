/**
 * frontend/src/actions/reviews.ts: the review post, with its session gate and multipart form,
 * and the review listing request.
 */
module ReviewActions {
  import opened Wrappers
  import opened Text
  import opened ShopTypes
  import NextAuth

  /** One FormData value: text, or a browser file. */
  datatype FormPart = TextValue(s: string) | FileValue(file: File)

  type FormEntries = seq<(string, FormPart)>

  /** The review the modal submits; images may be absent. */
  datatype ReviewData = ReviewData(title: string, content: string, images: Option<seq<File>>)

  /** An authenticated request: URL, bearer header and, for a post, the form. */
  datatype ReviewRequest = ReviewRequest(url: string, authorization: string, entries: FormEntries)

  const NotAuthenticated := "認証されていません。ログインしてください。"

  /** The form key of the i-th image. */
  function ImageKey(i: nat): (key: string)
    ensures StartsWith(key, "images[") && key[|key| - 1] == ']'
  {
    "images[" + NatToString(i) + "]"
  }

  /** The image entries, one per image in list order. */
  function ImageEntries(images: seq<File>): (es: FormEntries)
    ensures |es| == |images|
    ensures forall i :: 0 <= i < |images| ==> es[i] == (ImageKey(i), FileValue(images[i]))
  {
    seq(|images|, i requires 0 <= i < |images| => (ImageKey(i), FileValue(images[i])))
  }

  /** The form a review post carries: shop, title, content, then the images. */
  function ReviewEntries(shopId: int, data: ReviewData): (es: FormEntries)
    ensures |es| == 3 + |data.images.GetOr([])|
    ensures es[..3] == [("shop", TextValue(IntToString(shopId))), ("title", TextValue(data.title)),
                        ("content", TextValue(data.content))]
    ensures es[3..] == ImageEntries(data.images.GetOr([]))
  {
    [("shop", TextValue(IntToString(shopId))), ("title", TextValue(data.title)), ("content", TextValue(data.content))]
    + ImageEntries(data.images.GetOr([]))
  }

  /** The post createReview sends for a signed-in session. */
  function PostRequest(apiUrl: Option<string>, session: NextAuth.SessionValue, shopId: int, data: ReviewData): ReviewRequest
  {
    ReviewRequest(Interpolated(apiUrl) + "/api/shops/reviews/", NextAuth.Bearer(session.accessToken), ReviewEntries(shopId, data))
  }

  /**
   * createReview up to the post: without a session it throws before any request; otherwise it
   * posts the form with the session's access token. `session` is getSession's reply.
   */
  method CreateReview(apiUrl: Option<string>, session: Option<NextAuth.SessionValue>, shopId: int, data: ReviewData)
    returns (r: Result<ReviewRequest, string>)
    ensures session.None? ==> r == Failure(NotAuthenticated)
    ensures session.Some? ==> r == Success(PostRequest(apiUrl, session.value, shopId, data))
    ensures session.Some? ==> r.value.url == Interpolated(apiUrl) + "/api/shops/reviews/"
    ensures session.Some? ==> r.value.authorization == NextAuth.Bearer(session.value.accessToken)
    ensures session.Some? ==> r.value.entries == ReviewEntries(shopId, data)
  {
    if session.None? {
      return Failure(NotAuthenticated);
    }
    var head: FormEntries := [("shop", TextValue(IntToString(shopId))), ("title", TextValue(data.title)),
                              ("content", TextValue(data.content))];
    var entries := head;
    var images := data.images.GetOr([]);
    if data.images.Some? {
      var i := 0;
      while i < |images|
        invariant 0 <= i <= |images|
        invariant |entries| == 3 + i && entries[..3] == head
        invariant forall j :: 0 <= j < i ==> entries[3 + j] == (ImageKey(j), FileValue(images[j]))
      {
        entries := entries + [(ImageKey(i), FileValue(images[i]))];
        i := i + 1;
      }
    }
    assert entries[3..] == ImageEntries(images);
    assert entries == entries[..3] + entries[3..];
    assert entries == ReviewEntries(shopId, data);
    return Success(ReviewRequest(Interpolated(apiUrl) + "/api/shops/reviews/",
                                 NextAuth.Bearer(session.value.accessToken), entries));
  }

  /** The image keys are distinct, so no image overwrites another on the server. */
  lemma ImageKeysDistinct(i: nat, j: nat)
    requires i != j
    ensures ImageKey(i) != ImageKey(j)
  {
    if ImageKey(i) == ImageKey(j) {
      var a := NatToString(i);
      var b := NatToString(j);
      assert |a| == |b|;
      assert ImageKey(i)[7..7 + |a|] == a;
      assert ImageKey(j)[7..7 + |b|] == b;
      NatToStringInjective(i, j);
    }
  }

  /** getReviews: throws without a session, else asks for one shop's reviews. */
  function GetReviews(apiUrl: Option<string>, session: Option<NextAuth.SessionValue>, shopId: int): (r: Result<ReviewRequest, string>)
    ensures session.None? ==> r == Failure(NotAuthenticated)
    ensures session.Some? ==> r.Success? && r.value.entries == []
    ensures session.Some? ==> r.value.url == Interpolated(apiUrl) + "/api/shops/reviews/?shop_id=" + IntToString(shopId)
    ensures session.Some? ==> r.value.authorization == NextAuth.Bearer(session.value.accessToken)
  {
    if session.None? then Failure(NotAuthenticated)
    else Success(ReviewRequest(Interpolated(apiUrl) + "/api/shops/reviews/?shop_id=" + IntToString(shopId),
                               NextAuth.Bearer(session.value.accessToken), []))
  }
}
