/**
 * The community feed (`CommunityFeed`): composing a post with an optional
 * image, the author-only delete, and the like button.
 */
module CommunityFeed {
  import opened Wrappers
  import opened Js
  import opened ApiConfigs
  import opened Social

  /** A file the member picked; only its identity matters here. */
  datatype ImageFile = ImageFile(name: string)

  /** A post of the feed as the page reads it. */
  datatype Post = Post(
    uid: Option<string>,            // `_id`
    authorId: Option<string>,       // `author?._id`
    content: string,
    likes: Option<seq<string>>,
    comments: Option<seq<string>>)

  /** One `FormData.append`. */
  datatype Field = TextField(name: string, text: string) | FileField(name: string, file: ImageFile)

  /** The composer and the list, as a value. */
  datatype FeedState = FeedState(
    posts: seq<Post>,
    newPost: string,
    selectedImage: Option<ImageFile>,
    imagePreview: string,
    loading: bool)

  /** `!newPost.trim() && !selectedImage`: `handlePost` returns at once. */
  predicate NothingToPost(draft: string, image: Option<ImageFile>) {
    Trim(draft) == "" && image.None?
  }

  /** `disabled={loading || (!newPost && !selectedImage)}`. */
  predicate PostButtonDisabled(s: FeedState) {
    s.loading || (s.newPost == "" && s.selectedImage.None?)
  }

  /**
   * The guard holds exactly for a blank draft without an image; so a draft
   * of spaces enables the button, yet pressing it does nothing, while an
   * empty draft is stopped by both.
   */
  lemma PostGuards(s: FeedState)
    ensures NothingToPost(s.newPost, s.selectedImage) <==> AllWhiteSpace(s.newPost) && s.selectedImage.None?
    ensures !s.loading && s.newPost != "" && AllWhiteSpace(s.newPost) && s.selectedImage.None? ==>
      !PostButtonDisabled(s) && NothingToPost(s.newPost, s.selectedImage)
    ensures PostButtonDisabled(s) && !s.loading ==> NothingToPost(s.newPost, s.selectedImage)
  {
    TrimEmptyIffAllWhiteSpace(s.newPost);
  }

  /** The multipart body `handlePost` builds. */
  function Payload(draft: string, city: Option<string>, image: Option<ImageFile>): (r: seq<Field>)
    ensures |r| == if image.Some? then 3 else 2
    ensures r[0] == TextField("content", draft)
    ensures r[1].TextField? && r[1].name == "location"
    ensures r[1].text == if TruthyText(city) then city.value else "Texas"
    ensures forall i :: 0 <= i < |r| && r[i].FileField? ==> image.Some? && r[i] == FileField("image", image.value)
  {
    [TextField("content", draft), TextField("location", TextOr(city, "Texas"))]
      + (if image.Some? then [FileField("image", image.value)] else [])
  }

  /** `fetchFeed`: it has no catch, so a failure leaves the list as it was. */
  function FetchFeedSpec(s: FeedState, answer: Response<seq<Post>>): FeedState {
    if answer.Ok? then s.(posts := answer.data) else s
  }

  /** `handlePost`, with the create call's answer and the re-fetch it triggers. */
  function HandlePostSpec(s: FeedState, answer: Response<()>, refetch: Response<seq<Post>>): FeedState {
    if NothingToPost(s.newPost, s.selectedImage) then s
    else if answer.Ok? then
      FetchFeedSpec(s.(newPost := "", selectedImage := None, imagePreview := "", loading := false), refetch)
    else s.(loading := false)
  }

  /**
   * After a post that went out, the spinner is off; success empties the
   * composer, failure keeps what was typed and picked.
   */
  lemma HandlePostOutcomes(s: FeedState, answer: Response<()>, refetch: Response<seq<Post>>)
    requires !NothingToPost(s.newPost, s.selectedImage)
    ensures !HandlePostSpec(s, answer, refetch).loading
    ensures answer.Ok? ==> HandlePostSpec(s, answer, refetch).newPost == ""
    ensures answer.Ok? ==> HandlePostSpec(s, answer, refetch).selectedImage.None?
    ensures answer.Ok? ==> HandlePostSpec(s, answer, refetch).imagePreview == ""
    ensures answer.Ok? && refetch.Ok? ==> HandlePostSpec(s, answer, refetch).posts == refetch.data
    ensures answer.Failed? ==> HandlePostSpec(s, answer, refetch) == s.(loading := false)
  {
  }

  /** `currentUser?._id === post.author?._id`: two absent ids are equal too. */
  predicate CanDelete(currentUserId: Option<string>, post: Post) {
    currentUserId == post.authorId
  }

  /**
   * The trash icon shows on one's own posts, never on another member's;
   * it also shows when neither side has an id.
   */
  lemma DeleteControlOwnership(currentUserId: Option<string>, post: Post)
    ensures currentUserId.Some? && post.authorId.Some? ==>
      (CanDelete(currentUserId, post) <==> currentUserId.value == post.authorId.value)
    ensures currentUserId.Some? != post.authorId.Some? ==> !CanDelete(currentUserId, post)
    ensures currentUserId.None? && post.authorId.None? ==> CanDelete(currentUserId, post)
  {
  }

  /** `post.likes?.includes(currentUser?._id)`. */
  predicate LikedByMe(currentUserId: Option<string>, post: Post) {
    post.likes.Some? && currentUserId.Some? && currentUserId.value in post.likes.value
  }

  /** `post.likes?.length || 0`. */
  function LikeCount(post: Post): (r: nat)
    ensures post.likes.None? ==> r == 0
    ensures post.likes.Some? ==> r == |post.likes.value|
  {
    if post.likes.Some? then |post.likes.value| else 0
  }

  /** `post.comments?.length || 0`. */
  function CommentCount(post: Post): (r: nat)
    ensures post.comments.None? ==> r == 0
    ensures post.comments.Some? ==> r == |post.comments.value|
  {
    if post.comments.Some? then |post.comments.value| else 0
  }

  /** A heart shown filled means at least one like is counted. */
  lemma LikedImpliesCounted(currentUserId: Option<string>, post: Post)
    ensures LikedByMe(currentUserId, post) ==> LikeCount(post) >= 1
    ensures LikeCount(post) == 0 ==> !LikedByMe(currentUserId, post)
  {
  }

  class Feed {
    var posts: seq<Post>
    var newPost: string
    var selectedImage: Option<ImageFile>
    var imagePreview: string
    var loading: bool

    function State(): FeedState
      reads this
    {
      FeedState(posts, newPost, selectedImage, imagePreview, loading)
    }

    constructor ()
      ensures State() == FeedState([], "", None, "", false)
    {
      posts := [];
      newPost := "";
      selectedImage := None;
      imagePreview := "";
      loading := false;
    }

    method FetchFeed(answer: Response<seq<Post>>)
      modifies this
      ensures State() == FetchFeedSpec(old(State()), answer)
    {
      if answer.Ok? {
        posts := answer.data;
      }
    }

    /** `handleImageSelect`, with the picked file and the preview URL the browser made for it. */
    method HandleImageSelect(file: Option<ImageFile>, objectUrl: string)
      modifies this
      ensures State() == if file.Some? then old(State()).(selectedImage := file, imagePreview := objectUrl)
        else old(State())
    {
      if file.Some? {
        selectedImage := file;
        imagePreview := objectUrl;
      }
    }

    /** The close button on the preview. */
    method ClearImage()
      modifies this
      ensures State() == old(State()).(selectedImage := None, imagePreview := "")
    {
      selectedImage := None;
      imagePreview := "";
    }

    /**
     * `handlePost`, given the member's city, the create call's answer and
     * the re-fetch; `payload` is the body sent, if any.
     */
    method HandlePost(city: Option<string>, answer: Response<()>, refetch: Response<seq<Post>>)
      returns (payload: Option<seq<Field>>, toast: Option<Toast>)
      modifies this
      ensures payload.None? <==> NothingToPost(old(newPost), old(selectedImage))
      ensures payload.Some? ==> payload.value == Payload(old(newPost), city, old(selectedImage))
      ensures toast.Some? <==> payload.Some? && answer.Failed?
      ensures toast.Some? ==> toast.value == Toast("Post failed", "", true)
      ensures State() == HandlePostSpec(old(State()), answer, refetch)
    {
      toast := None;
      if NothingToPost(newPost, selectedImage) {
        return None, None;
      }
      loading := true;
      payload := Some(Payload(newPost, city, selectedImage));
      if answer.Ok? {
        newPost := "";
        selectedImage := None;
        imagePreview := "";
        FetchFeed(refetch);
      } else {
        toast := Some(Toast("Post failed", "", true));
      }
      loading := false;
    }

    /** `handleDelete`: a declined confirmation makes no call. */
    method HandleDelete(postId: string, confirmed: bool, answer: Response<()>, refetch: Response<seq<Post>>)
      returns (request: Option<Url>, toast: Option<Toast>)
      modifies this
      ensures request.Some? <==> confirmed
      ensures request.Some? ==> request.value == PostUrl(Completed, postId)
      ensures toast.Some? <==> confirmed && answer.Failed?
      ensures toast.Some? ==> toast.value == Toast("Delete failed", "", true)
      ensures State() == if confirmed && answer.Ok? then FetchFeedSpec(old(State()), refetch) else old(State())
    {
      toast := None;
      if !confirmed {
        return None, None;
      }
      assert IsPath(Completed, Posts, Base);
      request := Some(PostUrl(Completed, postId));
      if answer.Ok? {
        FetchFeed(refetch);
      } else {
        toast := Some(Toast("Delete failed", "", true));
      }
    }

    /** `handleLike`: the server toggles the like; the list is re-fetched. */
    method HandleLike(postId: string, answer: Response<()>, refetch: Response<seq<Post>>) returns (request: Url)
      modifies this
      ensures request == PostLikeUrl(Completed, postId)
      ensures State() == if answer.Ok? then FetchFeedSpec(old(State()), refetch) else old(State())
    {
      assert IsPath(Completed, Posts, Base);
      request := PostLikeUrl(Completed, postId);
      if answer.Ok? {
        FetchFeed(refetch);
      }
    }
  }
}
