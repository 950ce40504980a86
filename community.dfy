/** The community feed (`src/pages/Community.tsx`): creating a post,
    reacting to one, the new post's tag list, the category tabs and the two
    post counts. */
module Community {
  import opened Text
  import opened Seqs
  import opened Schema

  /** The create-post dialog's fields. */
  datatype PostForm = PostForm(
    title: string,
    content: string,
    category: PostCategory,
    isAnonymous: bool,
    tags: seq<string>)

  /** The dialog as it starts and as it is reset after a post is shared. */
  const EmptyPostForm := PostForm("", "", General, false, [])

  /** The name shown on a post signed by the current user. */
  const CurrentUserName := "Sarah Mitchell"
  /** The name shown on an anonymous post. */
  const AnonymousName := "Anonymous"

  /** `handleCreatePost` refuses a form whose title or content is blank. */
  predicate CanPost(form: PostForm) {
    !IsBlank(form.title) && !IsBlank(form.content)
  }

  /** The post a valid create puts at the head of the feed. */
  function PostFromForm(form: PostForm, now: Instant): (p: Post)
    ensures p.authorId == CurrentUserId && p.reactions == NoReactions
    ensures p.id == "post-" + DecimalText(now)
    ensures p.authorName == (if form.isAnonymous then AnonymousName else CurrentUserName)
    ensures p.isAnonymous == form.isAnonymous && p.title == form.title && p.content == form.content
    ensures p.category == form.category && p.tags == form.tags
    ensures p.createdAt == now && p.updatedAt == now
  {
    Post("post-" + DecimalText(now), CurrentUserId,
         if form.isAnonymous then AnonymousName else CurrentUserName,
         form.isAnonymous, form.title, form.content, form.category, form.tags,
         NoReactions, now, now)
  }

  // ---- Reactions ------------------------------------------------------

  /** The counters after one more reaction of the given kind. */
  function Bumped(r: Reactions, kind: ReactionKind): (b: Reactions)
    ensures b.Count(kind) == r.Count(kind) + 1
    ensures forall k: ReactionKind :: k != kind ==> b.Count(k) == r.Count(k)
  {
    match kind
    case Heart => r.(heart := r.heart + 1)
    case Hug => r.(hug := r.hug + 1)
    case Star => r.(star := r.star + 1)
  }

  /** The feed after `handleReaction(id, kind)`: the chosen counter of each
      post with that id goes up by one; nothing else changes. */
  function ReactTo(posts: seq<Post>, id: string, kind: ReactionKind): (r: seq<Post>)
    ensures |r| == |posts|
    ensures forall i :: 0 <= i < |r| && posts[i].id != id ==> r[i] == posts[i]
    ensures forall i :: 0 <= i < |r| && posts[i].id == id ==>
      r[i].reactions.Count(kind) == posts[i].reactions.Count(kind) + 1 &&
      (forall k: ReactionKind :: k != kind ==> r[i].reactions.Count(k) == posts[i].reactions.Count(k)) &&
      r[i].(reactions := posts[i].reactions) == posts[i]
  {
    seq(|posts|, i requires 0 <= i < |posts| =>
      if posts[i].id == id then posts[i].(reactions := Bumped(posts[i].reactions, kind))
      else posts[i])
  }

  // ---- Tags -----------------------------------------------------------

  /** `addTag` accepts a non-empty tag that is not on the list yet. */
  predicate CanAddTag(tags: seq<string>, tag: string) {
    tag != "" && tag !in tags
  }

  /** The tag list after `addTag(tag)`. */
  function WithTag(tags: seq<string>, tag: string): (r: seq<string>)
    ensures tag != "" ==> tag in r
    ensures forall t :: t in tags ==> t in r
    ensures CanAddTag(tags, tag) ==> r == tags + [tag]
    ensures !CanAddTag(tags, tag) ==> r == tags
  {
    if CanAddTag(tags, tag) then tags + [tag] else tags
  }

  /** A tag list holds distinct, non-empty tags. */
  predicate TagsValid(tags: seq<string>) {
    NoDup(tags) && forall i :: 0 <= i < |tags| ==> tags[i] != ""
  }

  /** Adding keeps the list duplicate-free and free of empty tags, and grows
      it by one exactly when the tag is accepted. */
  lemma WithTagValid(tags: seq<string>, tag: string)
    requires TagsValid(tags)
    ensures TagsValid(WithTag(tags, tag))
    ensures |WithTag(tags, tag)| == |tags| + (if CanAddTag(tags, tag) then 1 else 0)
  {
    if CanAddTag(tags, tag) {
      AppendNoDup(tags, tag);
    }
  }

  /** `removeTag(tag)` takes every copy of the tag out (`Seqs.Remove`);
      a valid list stays valid, and a tag just added comes back out. */
  lemma RemoveTagValid(tags: seq<string>, tag: string)
    requires TagsValid(tags)
    ensures TagsValid(Remove(tags, tag))
    ensures CanAddTag(tags, tag) ==> Remove(WithTag(tags, tag), tag) == tags
  {
    RemoveLaws(tags, [], tag);
    if CanAddTag(tags, tag) {
      RemoveAppended(tags, tag);
    }
  }

  // ---- Category tabs and counts --------------------------------------

  function InCategory(name: string): Post -> bool {
    (p: Post) => PostCategoryName(p.category) == name
  }

  /** `filteredPosts` for the selected tab: every post for "All", otherwise
      the posts whose category is the tab's lower-cased name. */
  function FilteredPosts(posts: seq<Post>, selected: string): (r: seq<Post>)
    ensures selected == AllTab ==> r == posts
    ensures selected != AllTab ==>
      (forall i :: 0 <= i < |r| ==> PostCategoryName(r[i].category) == ToLower(selected) && r[i] in posts) &&
      (forall i :: 0 <= i < |posts| && PostCategoryName(posts[i].category) == ToLower(selected) ==> posts[i] in r)
  {
    if selected == AllTab then posts else Filter(InCategory(ToLower(selected)), posts)
  }

  /** The tab buttons above the feed, "All" first. */
  const CategoryTabs: seq<string> := ["All", "General", "Support", "Celebration", "Advice"]

  /** Each tab after "All" lower-cases to the name of a different post
      category, and every category has a tab. */
  lemma CategoryTabsNameCategories()
    ensures |CategoryTabs| == 5 && CategoryTabs[0] == AllTab
    ensures ParsePostCategory(ToLower(CategoryTabs[1])) == Some(General)
    ensures ParsePostCategory(ToLower(CategoryTabs[2])) == Some(Support)
    ensures ParsePostCategory(ToLower(CategoryTabs[3])) == Some(Celebration)
    ensures ParsePostCategory(ToLower(CategoryTabs[4])) == Some(Advice)
    ensures forall c: PostCategory :: exists i :: 1 <= i < |CategoryTabs| && ParsePostCategory(ToLower(CategoryTabs[i])) == Some(c)
  {
    assert ToLower(CategoryTabs[1]) == "general";
    assert ToLower(CategoryTabs[2]) == "support";
    assert ToLower(CategoryTabs[3]) == "celebration";
    assert ToLower(CategoryTabs[4]) == "advice";
    forall c: PostCategory
      ensures exists i :: 1 <= i < |CategoryTabs| && ParsePostCategory(ToLower(CategoryTabs[i])) == Some(c)
    {
      var i := match c
        case General => 1
        case Support => 2
        case Celebration => 3
        case Advice => 4;
      assert ParsePostCategory(ToLower(CategoryTabs[i])) == Some(c);
    }
  }

  /** A tab naming a category selects only posts of that category, in feed
      order; a tab naming none selects nothing. */
  lemma CategoryTabExact(posts: seq<Post>, more: seq<Post>, selected: string)
    requires selected != AllTab
    ensures ParsePostCategory(ToLower(selected)) == None ==> FilteredPosts(posts, selected) == []
    ensures forall i :: 0 <= i < |FilteredPosts(posts, selected)| ==>
      ParsePostCategory(ToLower(selected)) == Some(FilteredPosts(posts, selected)[i].category)
    ensures FilteredPosts(posts + more, selected) == FilteredPosts(posts, selected) + FilteredPosts(more, selected)
  {
    var r := FilteredPosts(posts, selected);
    forall i | 0 <= i < |r|
      ensures ParsePostCategory(ToLower(selected)) == Some(r[i].category)
    {
      ParsePostCategoryName(r[i].category);
    }
    if ParsePostCategory(ToLower(selected)) == None && r != [] {
      ParsePostCategoryName(r[0].category);
    }
    FilterConcat(InCategory(ToLower(selected)), posts, more);
  }

  function ByAuthor(authorId: string): Post -> bool {
    (p: Post) => p.authorId == authorId
  }

  /** `totalPosts`. */
  function TotalPosts(posts: seq<Post>): nat {
    |posts|
  }

  /** `myPosts`: the posts filed under the current user, anonymous or not. */
  function MyPosts(posts: seq<Post>): (n: nat)
    ensures n <= TotalPosts(posts)
  {
    |Filter(ByAuthor(CurrentUserId), posts)|
  }

  /** Sharing a post raises both counts by one. */
  lemma CreateCounts(form: PostForm, now: Instant, posts: seq<Post>)
    ensures TotalPosts([PostFromForm(form, now)] + posts) == TotalPosts(posts) + 1
    ensures MyPosts([PostFromForm(form, now)] + posts) == MyPosts(posts) + 1
  {
    var p := PostFromForm(form, now);
    assert ([p] + posts)[0] == p && ([p] + posts)[1..] == posts;
  }

  // ---- The page state -------------------------------------------------

  class CommunityFeed {
    var posts: seq<Post>
    var selectedCategory: string
    var newPost: PostForm
    var isDialogOpen: bool
    var tagInput: string

    ghost predicate Valid()
      reads this
    {
      TagsValid(newPost.tags)
    }

    constructor (initial: seq<Post>)
      ensures Valid()
      ensures posts == initial && selectedCategory == AllTab && newPost == EmptyPostForm
      ensures !isDialogOpen && tagInput == ""
    {
      posts, selectedCategory, newPost := initial, AllTab, EmptyPostForm;
      isDialogOpen, tagInput := false, "";
    }

    /** The title, content and category inputs and the anonymity toggle of
        the dialog; the tags are kept. */
    method EditForm(title: string, content: string, category: PostCategory, isAnonymous: bool)
      requires Valid()
      modifies this`newPost
      ensures Valid() && newPost == PostForm(title, content, category, isAnonymous, old(newPost.tags))
    {
      newPost := PostForm(title, content, category, isAnonymous, newPost.tags);
    }

    method SetTagInput(s: string)
      modifies this`tagInput
      ensures tagInput == s
    {
      tagInput := s;
    }

    method SelectCategory(category: string)
      modifies this`selectedCategory
      ensures selectedCategory == category
    {
      selectedCategory := category;
    }

    /** A blank title or content changes nothing; otherwise the new post is
        put first, the form is reset and the dialog closes. */
    method Create(now: Instant) returns (created: bool)
      requires Valid()
      modifies this`posts, this`newPost, this`isDialogOpen
      ensures Valid()
      ensures created <==> CanPost(old(newPost))
      ensures !created ==>
        posts == old(posts) && newPost == old(newPost) && isDialogOpen == old(isDialogOpen)
      ensures created ==>
        posts == [PostFromForm(old(newPost), now)] + old(posts) &&
        newPost == EmptyPostForm && !isDialogOpen
      ensures created ==>
        TotalPosts(posts) == TotalPosts(old(posts)) + 1 && MyPosts(posts) == MyPosts(old(posts)) + 1
    {
      if !CanPost(newPost) {
        return false;
      }
      CreateCounts(newPost, now, posts);
      posts := [PostFromForm(newPost, now)] + posts;
      newPost := EmptyPostForm;
      isDialogOpen := false;
      created := true;
    }

    method React(id: string, kind: ReactionKind)
      modifies this`posts
      ensures posts == ReactTo(old(posts), id, kind)
    {
      posts := ReactTo(posts, id, kind);
    }

    /** `addTag(tag)`, which the dialog calls with the trimmed tag input: an
        accepted tag is appended and clears the input; any other leaves both
        alone. */
    method AddTag(tag: string)
      requires Valid()
      modifies this`newPost, this`tagInput
      ensures Valid()
      ensures newPost == old(newPost).(tags := WithTag(old(newPost.tags), tag))
      ensures tagInput == (if CanAddTag(old(newPost.tags), tag) then "" else old(tagInput))
    {
      WithTagValid(newPost.tags, tag);
      if CanAddTag(newPost.tags, tag) {
        newPost := newPost.(tags := newPost.tags + [tag]);
        tagInput := "";
      }
    }

    /** The add button and the Enter key: `addTag(tagInput.trim())`. */
    method SubmitTagInput()
      requires Valid()
      modifies this`newPost, this`tagInput
      ensures Valid()
      ensures newPost == old(newPost).(tags := WithTag(old(newPost.tags), Trim(old(tagInput))))
      ensures CanAddTag(old(newPost.tags), Trim(old(tagInput))) ==> tagInput == ""
      ensures !CanAddTag(old(newPost.tags), Trim(old(tagInput))) ==> tagInput == old(tagInput)
    {
      AddTag(Trim(tagInput));
    }

    method RemoveTag(tag: string)
      requires Valid()
      modifies this`newPost
      ensures Valid()
      ensures newPost == old(newPost).(tags := Remove(old(newPost.tags), tag))
    {
      RemoveTagValid(newPost.tags, tag);
      newPost := newPost.(tags := Remove(newPost.tags, tag));
    }
  }
}
