/**
 * The blog's post data and its queries (lookup by slug, featured posts, most recent posts), and
 * the blog index page's choice of a featured post and the list shown beside it.
 */
module Blog {
  import opened Wrappers
  import opened Seqs
  import Sorting

  /** A post; `date` is the publication date as an ordered number (`2025-09-07` is 20250907). */
  datatype BlogPost = BlogPost(
    id: string, slug: string, title: string, author: string, date: int, readTime: string,
    category: string, tags: seq<string>, featured: bool)

  /** The site's posts, in the order they are declared. */
  function SitePosts(): (posts: seq<BlogPost>)
    ensures |posts| == 4
  {
    [ BlogPost("1", "ai-transformation-2025", "The AI Transformation Playbook for 2025", "Ray Khatir", 20250907,
               "8 min read", "Strategy", ["AI Strategy", "Digital Transformation", "Enterprise AI"], true),
      BlogPost("2", "llm-enterprise-applications", "Practical LLM Applications for Enterprise", "AI Partner", 20250905,
               "6 min read", "Technology", ["LLMs", "Generative AI", "NLP", "Automation"], true),
      BlogPost("3", "ai-roi-measurement", "Measuring ROI in AI Initiatives", "Ray Khatir", 20250903,
               "7 min read", "Business", ["ROI", "Metrics", "Business Strategy", "AI Investment"], false),
      BlogPost("4", "responsible-ai-governance", "Building Responsible AI Governance", "AI Partner", 20250901,
               "6 min read", "Governance", ["Ethics", "Governance", "Compliance", "Responsible AI"], false) ]
  }

  predicate DistinctSlugs(posts: seq<BlogPost>) {
    forall i, j :: 0 <= i < j < |posts| ==> posts[i].slug != posts[j].slug
  }

  predicate DistinctIds(posts: seq<BlogPost>) {
    forall i, j :: 0 <= i < j < |posts| ==> posts[i].id != posts[j].id
  }

  function Date(p: BlogPost): int { p.date }

  function IsFeatured(p: BlogPost): bool { p.featured }

  function HasSlug(slug: string): BlogPost -> bool {
    (p: BlogPost) => p.slug == slug
  }

  /** The site's posts have pairwise different slugs and ids. */
  lemma SitePostsDistinct()
    ensures DistinctSlugs(SitePosts()) && DistinctIds(SitePosts())
  {
    var s := SitePosts();
    forall i, j | 0 <= i < j < |s| ensures s[i].slug != s[j].slug && s[i].id != s[j].id {
      assert s[i].id[0] != s[j].id[0];
      if i == 0 && j == 2 {
        assert s[i].slug[3] != s[j].slug[3];
      } else {
        assert s[i].slug[0] != s[j].slug[0];
      }
    }
  }

  /** The site's posts are declared newest first. */
  lemma SitePostsNewestFirst()
    ensures Sorting.SortedDesc(SitePosts(), Date)
  {
  }

  /** `getBlogPost`: the first post with the slug, or none. */
  function GetBlogPost(posts: seq<BlogPost>, slug: string): (r: Option<BlogPost>)
    ensures r.None? <==> forall k :: 0 <= k < |posts| ==> posts[k].slug != slug
    ensures r.Some? ==> r.value in posts && r.value.slug == slug
  {
    var i := FindIndex(posts, HasSlug(slug));
    if i < |posts| then Some(posts[i]) else None
  }

  /** With distinct slugs the lookup finds the one post with that slug, wherever it stands. */
  lemma {:induction false} LookupUnique(posts: seq<BlogPost>, k: nat)
    requires DistinctSlugs(posts) && k < |posts|
    ensures GetBlogPost(posts, posts[k].slug) == Some(posts[k])
  {
    var i := FindIndex(posts, HasSlug(posts[k].slug));
    assert HasSlug(posts[k].slug)(posts[k]);
    assert i <= k;
    assert i < |posts| && posts[i].slug == posts[k].slug;
  }

  /** `getFeaturedPosts`: exactly the featured posts, in order. */
  function GetFeaturedPosts(posts: seq<BlogPost>): (r: seq<BlogPost>)
    ensures forall k :: 0 <= k < |r| ==> r[k] in posts && r[k].featured
    ensures forall k :: 0 <= k < |posts| && posts[k].featured ==> posts[k] in r
  {
    Filter(posts, IsFeatured)
  }

  const DefaultLimit := 3

  /** Where `slice(0, limit)` ends on a list of `n` elements (a negative limit counts from the end). */
  function SliceEnd(n: nat, limit: int): (e: nat)
    ensures e <= n
    ensures limit >= 0 ==> e == if limit < n then limit else n
    ensures limit < 0 ==> e == if n + limit > 0 then n + limit else 0
  {
    if limit < 0 then (if n + limit > 0 then n + limit else 0)
    else if limit < n then limit else n
  }

  /** The reference result of `getRecentPosts` on a list in the order `s`. */
  function Recent(s: seq<BlogPost>, limit: int): seq<BlogPost> {
    var sorted := Sorting.SortDesc(s, Date);
    sorted[..SliceEnd(|s|, limit)]
  }

  /** At most `limit` posts, newest first, each one drawn from the list. */
  lemma {:induction false} RecentProperties(s: seq<BlogPost>, limit: int)
    ensures limit >= 0 ==> |Recent(s, limit)| <= limit
    ensures Sorting.SortedDesc(Recent(s, limit), Date)
    ensures multiset(Recent(s, limit)) <= multiset(s)
  {
    var sorted := Sorting.SortDesc(s, Date);
    var e := SliceEnd(|s|, limit);
    Sorting.SortDescSorted(s, Date);
    Sorting.SortDescPermutation(s, Date);
    assert sorted == sorted[..e] + sorted[e..];
    assert multiset(sorted) == multiset(sorted[..e]) + multiset(sorted[e..]);
  }

  /** Once sorted by a first call, the list stays put, so every later call returns the same posts. */
  lemma {:induction false} RecentRepeats(s: seq<BlogPost>, limit1: int, limit2: int)
    ensures Sorting.SortDesc(Sorting.SortDesc(s, Date), Date) == Sorting.SortDesc(s, Date)
    ensures Recent(Sorting.SortDesc(s, Date), limit2) == Recent(s, limit2)
  {
    Sorting.SortDescSorted(s, Date);
    Sorting.SortDescOfSorted(Sorting.SortDesc(s, Date), Date);
  }

  /** The site's posts are already newest first, so the in-place sort leaves their order unchanged. */
  lemma SiteOrderUnchanged()
    ensures Sorting.SortDesc(SitePosts(), Date) == SitePosts()
    ensures Recent(SitePosts(), DefaultLimit) == SitePosts()[..3]
  {
    SitePostsNewestFirst();
    Sorting.SortDescOfSorted(SitePosts(), Date);
  }

  /** The shared post list; `getRecentPosts` sorts it in place. */
  class PostStore {
    var posts: array<BlogPost>

    constructor()
      ensures posts[..] == SitePosts()
    {
      var s := SitePosts();
      posts := new BlogPost[|s|](k requires 0 <= k < |s| => s[k]);
    }

    /** `getRecentPosts(limit)`: sorts the shared list newest first, in place, and returns its first `limit` posts. */
    method GetRecentPosts(limit: int) returns (r: seq<BlogPost>)
      modifies posts
      ensures posts[..] == Sorting.SortDesc(old(posts[..]), Date)
      ensures r == Recent(old(posts[..]), limit)
    {
      Sorting.SortInPlace(posts, Date);
      r := posts[..SliceEnd(posts.Length, limit)];
    }
  }

  /** The blog index page's featured post: the first featured one, if any. */
  function FeaturedPost(posts: seq<BlogPost>): (r: Option<BlogPost>)
    ensures r.None? <==> forall k :: 0 <= k < |posts| ==> !posts[k].featured
    ensures r.Some? ==> r.value.featured && r.value == posts[FindIndex(posts, IsFeatured)]
  {
    var i := FindIndex(posts, IsFeatured);
    if i < |posts| then Some(posts[i]) else None
  }

  /** The page's filter: a post is listed unless it is featured and carries the featured post's id. */
  function ListedBeside(featured: Option<BlogPost>): BlogPost -> bool {
    (p: BlogPost) => !p.featured || featured.None? || p.id != featured.value.id
  }

  /** The list shown beside the featured post, in source order. */
  function RecentOnPage(posts: seq<BlogPost>): seq<BlogPost> {
    Filter(posts, ListedBeside(FeaturedPost(posts)))
  }

  /** With distinct ids, the list holds every post except the featured one. */
  lemma RecentExcludesOnlyFeatured(posts: seq<BlogPost>)
    requires DistinctIds(posts) && FeaturedPost(posts).Some?
    ensures FeaturedPost(posts).value !in RecentOnPage(posts)
    ensures forall k :: 0 <= k < |posts| && posts[k] != FeaturedPost(posts).value ==> posts[k] in RecentOnPage(posts)
  {
    var f := FeaturedPost(posts).value;
    var i := FindIndex(posts, IsFeatured);
    forall k | 0 <= k < |posts| && posts[k] != f
      ensures posts[k] in RecentOnPage(posts)
    {
      if k != i {
        assert posts[k].id != posts[i].id;
      }
      assert ListedBeside(FeaturedPost(posts))(posts[k]);
    }
  }

  /** Without a featured post, every post is listed. */
  lemma NoFeaturedListsAll(posts: seq<BlogPost>)
    requires FeaturedPost(posts).None?
    ensures RecentOnPage(posts) == posts
  {
    FilterKeepsAll(posts, ListedBeside(FeaturedPost(posts)));
  }

  /** On the site the first post is featured, and the second, featured too, still appears in the list. */
  lemma SitePage()
    ensures FeaturedPost(SitePosts()) == Some(SitePosts()[0])
    ensures RecentOnPage(SitePosts()) == SitePosts()[1..]
  {
    var s := SitePosts();
    assert FindIndex(s, IsFeatured) == 0;
    var p := ListedBeside(Some(s[0]));
    assert !p(s[0]);
    FilterKeepsAll(s[1..], p);
    assert Filter(s, p) == Filter(s[1..], p);
  }
}
