/**
 * The wall-of-love page (src/app/wall-of-love/page.tsx) as shipped: a local
 * demonstration feed that starts with three sample posts. Submitting puts a
 * new post first, numbered one past the current count, and resets the form;
 * nothing is uploaded. The date string and the chosen file are parameters.
 */
module WallOfLove {
  import opened Common

  /** A post on the wall. */
  datatype Post = Post(id: int, author: string, message: string, image: Option<string>, date: string)

  /** A file the user picked; only its identity matters here. */
  datatype PickedFile = PickedFile(name: string)

  /** The form: `newPost`. */
  datatype Draft = Draft(author: string, message: string, image: Option<PickedFile>)

  const EmptyDraft: Draft := Draft("", "", None)

  /** The three sample posts the page starts with. */
  const SamplePosts: seq<Post> := [
    Post(1, "Obose & Unwana", "We can't wait to celebrate with everyone!",
      Some("https://images.unsplash.com/photo-1519741497674-611481863552?q=80&w=1470&auto=format&fit=crop"),
      "March 15, 2025"),
    Post(2, "Michael", "Looking forward to the beach day! It's going to be amazing!",
      Some("https://images.unsplash.com/photo-1437719417032-8595fd9e9dc6?q=80&w=1374&auto=format&fit=crop"),
      "March 10, 2025"),
    Post(3, "Lisa", "So happy for both of you! Can't wait to dance all night at the reception.",
      Some("https://images.unsplash.com/photo-1511795409834-ef04bbd61622?q=80&w=1469&auto=format&fit=crop"),
      "March 5, 2025")
  ]

  /**
   * The numbering the wall keeps: the sample posts 1, 2 and 3 stay last, and
   * every post before them is numbered by how many posts it found plus one,
   * so the newest has the highest number.
   */
  ghost predicate Numbered(posts: seq<Post>) {
    && |posts| >= 3
    && posts[|posts| - 3].id == 1 && posts[|posts| - 2].id == 2 && posts[|posts| - 1].id == 3
    && forall i :: 0 <= i < |posts| - 3 ==> posts[i].id == |posts| - i
  }

  /** The ids in use on the wall. */
  function Ids(posts: seq<Post>): set<int> {
    set p | p in posts :: p.id
  }

  /** The ids on a numbered wall are exactly 1 to n, so no two posts share one. */
  lemma NumberedIdsAreOneToN(posts: seq<Post>)
    requires Numbered(posts)
    ensures forall k :: k in Ids(posts) <==> 1 <= k <= |posts|
    ensures forall i, j :: 0 <= i < j < |posts| ==> posts[i].id != posts[j].id
  {
    var n := |posts|;
    forall k: int | 1 <= k <= n
      ensures k in Ids(posts)
    {
      var i := if k <= 3 then n - 4 + k else n - k;
      assert posts[i].id == k;
      assert posts[i] in posts;
    }
    forall p | p in posts
      ensures 1 <= p.id <= n
    {
      var i :| 0 <= i < n && posts[i] == p;
    }
  }

  /** The post `handleSubmit` builds: the form's author and message, the preview as image when there is one. */
  function NewPost(count: nat, draft: Draft, previewUrl: Option<string>, date: string): (p: Post)
    ensures p.id == count + 1
    ensures p.author == draft.author && p.message == draft.message && p.date == date
    ensures previewUrl.Some? && previewUrl.value != "" ==> p.image == previewUrl
    ensures previewUrl.None? || previewUrl.value == "" ==> p.image.None?
  {
    Post(count + 1, draft.author, draft.message,
         if previewUrl.Some? && previewUrl.value != "" then previewUrl else None, date)
  }

  class WallOfLovePage {
    var posts: seq<Post>
    var newPost: Draft
    var previewUrl: Option<string>

    ghost predicate Valid()
      reads this
    {
      Numbered(posts)
    }

    /** The page as mounted: the three sample posts and an empty form. */
    constructor ()
      ensures Valid()
      ensures posts == SamplePosts && newPost == EmptyDraft && previewUrl == None
    {
      posts := SamplePosts;
      newPost := EmptyDraft;
      previewUrl := None;
    }

    /** Typing into the author or message field. */
    method EditDraft(author: string, message: string)
      requires Valid()
      modifies this
      ensures Valid()
      ensures newPost == old(newPost).(author := author, message := message)
      ensures posts == old(posts) && previewUrl == old(previewUrl)
    {
      newPost := newPost.(author := author, message := message);
    }

    /** `handleImageChange`: with no file nothing changes; with one, it becomes the draft's image. */
    method ImageChange(file: Option<PickedFile>)
      requires Valid()
      modifies this
      ensures Valid()
      ensures file.None? ==> newPost == old(newPost)
      ensures file.Some? ==> newPost == old(newPost).(image := file)
      ensures posts == old(posts) && previewUrl == old(previewUrl)
    {
      if file.Some? {
        newPost := newPost.(image := file);
      }
    }

    /** The file reader's `onload`: the data URL it read becomes the preview. */
    method PreviewLoaded(dataUrl: string)
      requires Valid()
      modifies this
      ensures Valid()
      ensures previewUrl == Some(dataUrl)
      ensures posts == old(posts) && newPost == old(newPost)
    {
      previewUrl := Some(dataUrl);
    }

    /**
     * `handleSubmit`: the new post goes first and every earlier post follows
     * in order; the form and the preview are cleared. The numbering is kept,
     * so ids stay distinct.
     */
    method Submit(date: string)
      requires Valid()
      modifies this
      ensures Valid()
      ensures posts == [NewPost(|old(posts)|, old(newPost), old(previewUrl), date)] + old(posts)
      ensures |posts| == |old(posts)| + 1 && posts[1..] == old(posts)
      ensures newPost == EmptyDraft && previewUrl == None
    {
      posts := [NewPost(|posts|, newPost, previewUrl, date)] + posts;
      newPost := EmptyDraft;
      previewUrl := None;
    }
  }
}
