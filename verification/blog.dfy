/** The blog page: a fixed catalogue of posts narrowed by a category tab
    and a case-insensitive search, one featured post shown in its own
    section, a grid of the remaining posts and a count label. */
module Blog {
  import opened Wrappers
  import opened Text

  datatype Category = Category(name: string, slug: string)

  /** The category tabs, in display order. */
  const Categories: seq<Category> := [
    Category("All", "all"),
    Category("Product", "product"),
    Category("Engineering", "engineering"),
    Category("AI Trends", "ai-trends")]

  /** A post, reduced to the fields the page filters and lays out by. */
  datatype Post = Post(id: nat, title: string, excerpt: string, category: string, featured: bool)

  /** The catalogue the page ships with. */
  const Posts: seq<Post> := [
    Post(1, Title1, Excerpt1, "product", true),
    Post(2, Title2, Excerpt2, "ai-trends", false),
    Post(3, Title3, Excerpt3, "product", false),
    Post(4, Title4, Excerpt4, "ai-trends", false),
    Post(5, Title5, Excerpt5, "engineering", false),
    Post(6, Title6, Excerpt6, "ai-trends", false)]

  const Title1 := "The Art of Writing Great Product Specifications"
  const Excerpt1 :=
    "Learn the key elements that make specifications clear, actionable, and developer-friendly. A guide for PMs and founders."
  const Title2 := "How AI is Transforming Software Architecture"
  const Excerpt2 :=
    "Exploring the impact of AI on system design, from automated decision-making to intelligent architecture recommendations."
  const Title3 := "From Idea to Production: A Complete Guide"
  const Excerpt3 :=
    "Step-by-step guide on transforming your startup idea into a production-ready specification document."
  const Title4 := "The Rise of AI Coding Agents in 2025"
  const Excerpt4 :=
    "Understanding the landscape of AI coding agents and how to effectively work with them for maximum productivity."
  const Title5 := "Best Practices for Technical Documentation"
  const Excerpt5 :=
    "Writing documentation that developers actually want to read. Tips, templates, and tools for better docs."
  const Title6 := "Understanding the Mega-Prompt Pattern"
  const Excerpt6 :=
    "Deep dive into why Mega-Prompts work so well with AI coding agents and how to craft them effectively."

  /** `a` is `b` with some elements dropped and the rest in order. */
  predicate Subsequence(a: seq<Post>, b: seq<Post>)
    decreases |b|
  {
    if |a| == 0 then true
    else if |b| == 0 then false
    else if a[0] == b[0] then Subsequence(a[1..], b[1..])
    else Subsequence(a, b[1..])
  }

  /** `posts.filter(f)`. */
  function Keep(posts: seq<Post>, f: Post -> bool): (r: seq<Post>)
    ensures forall p :: p in r <==> p in posts && f(p)
    ensures |r| <= |posts|
  {
    if |posts| == 0 then []
    else (if f(posts[0]) then [posts[0]] else []) + Keep(posts[1..], f)
  }

  /** Filtering keeps the survivors in catalogue order. */
  lemma {:induction false} KeepIsSubsequence(posts: seq<Post>, f: Post -> bool)
    ensures Subsequence(Keep(posts, f), posts)
    decreases |posts|
  {
    if |posts| > 0 {
      KeepIsSubsequence(posts[1..], f);
      var rest := Keep(posts[1..], f);
      if f(posts[0]) {
        assert Keep(posts, f) == [posts[0]] + rest;
      } else {
        assert Keep(posts, f) == rest;
        SubsequenceSkip(rest, posts);
      }
    }
  }

  lemma {:induction false} SubsequenceSkip(a: seq<Post>, b: seq<Post>)
    requires |b| > 0 && Subsequence(a, b[1..])
    ensures Subsequence(a, b)
    decreases |b|, 0
  {
    if |a| > 0 && a[0] == b[0] {
      SubsequenceDrop(a, b[1..]);
    }
  }

  lemma {:induction false} SubsequenceDrop(a: seq<Post>, c: seq<Post>)
    requires |a| > 0 && Subsequence(a, c)
    ensures Subsequence(a[1..], c)
    decreases |c|, 1
  {
    if a[0] == c[0] {
      SubsequenceSkip(a[1..], c);
    } else {
      SubsequenceDrop(a, c[1..]);
      SubsequenceSkip(a[1..], c);
    }
  }

  /** The posts of one category, in catalogue order. */
  function OfCategory(posts: seq<Post>, active: string): (r: seq<Post>)
    ensures forall p :: p in r <==> p in posts && p.category == active
  {
    if |posts| == 0 then []
    else (if posts[0].category == active then [posts[0]] else []) + OfCategory(posts[1..], active)
  }

  /** `posts.filter(p => !p.featured)`. */
  function NonFeatured(posts: seq<Post>): (r: seq<Post>)
    ensures forall p :: p in r <==> p in posts && !p.featured
  {
    if |posts| == 0 then []
    else (if posts[0].featured then [] else [posts[0]]) + NonFeatured(posts[1..])
  }

  predicate MatchesCategory(active: string, p: Post) {
    active == "all" || p.category == active
  }

  /** The lower-cased query occurs in the lower-cased title or excerpt. */
  predicate MatchesSearch(query: string, p: Post) {
    Contains(Lower(p.title), Lower(query)) || Contains(Lower(p.excerpt), Lower(query))
  }

  predicate Kept(active: string, query: string, p: Post) {
    MatchesCategory(active, p) && MatchesSearch(query, p)
  }

  /** The posts the page counts. */
  function Filtered(posts: seq<Post>, active: string, query: string): (r: seq<Post>)
    ensures forall p :: p in r <==> p in posts && Kept(active, query, p)
  {
    Keep(posts, p => Kept(active, query, p))
  }

  /** The first featured post of the catalogue, whatever the filters. */
  function FeaturedPost(posts: seq<Post>): (r: Option<Post>)
    ensures r.Some? ==> r.value in posts && r.value.featured
    ensures r.None? <==> forall i :: 0 <= i < |posts| ==> !posts[i].featured
    ensures r.Some? && posts[0].featured ==> r.value == posts[0]
    ensures r.Some? ==> exists i :: 0 <= i < |posts| && posts[i] == r.value && NoneFeaturedBefore(posts, i)
    decreases |posts|
  {
    if |posts| == 0 then None
    else if posts[0].featured then
      assert NoneFeaturedBefore(posts, 0);
      Some(posts[0])
    else
      var r := FeaturedPost(posts[1..]);
      if r.Some? then
        var i :| 0 <= i < |posts[1..]| && posts[1..][i] == r.value && NoneFeaturedBefore(posts[1..], i);
        assert posts[i + 1] == r.value && NoneFeaturedBefore(posts, i + 1) by {
          forall j | 0 <= j < i + 1 ensures !posts[j].featured {
            if j > 0 { assert posts[j] == posts[1..][j - 1]; }
          }
        }
        r
      else r
  }

  /** No post before position `i` is featured. */
  predicate NoneFeaturedBefore(posts: seq<Post>, i: nat)
    requires i <= |posts|
  {
    forall j :: 0 <= j < i ==> !posts[j].featured
  }

  /** The featured section appears only for an empty search on the 'All'
      tab, and only when there is a featured post. */
  predicate FeaturedShown(posts: seq<Post>, active: string, query: string) {
    query == "" && active == "all" && FeaturedPost(posts).Some?
  }

  /** "article" for exactly one post, "articles" otherwise. */
  function Noun(n: nat): (r: string)
    ensures r == "article" <==> n == 1
  {
    if n == 1 then "article" else "articles"
  }

  /** The count label shows the number of filtered posts. */
  function CountLabel(n: nat): string {
    NatToString(n) + " " + Noun(n)
  }

  /** What the page lays out: the featured section, the grid heading, the
      count label, the grid, and whether "No articles found" is shown. */
  datatype Page = Page(
    featuredSection: Option<Post>,
    heading: string,
    count: nat,
    countLabel: string,
    grid: seq<Post>,
    noneFound: bool)

  /** A post appears somewhere on the page. */
  predicate Displayed(page: Page, p: Post) {
    page.featuredSection == Some(p) || p in page.grid
  }

  /** The page as the component builds it: the grid always leaves out every
      featured post, even when the featured section is hidden. */
  function RenderAsWritten(posts: seq<Post>, active: string, query: string): (r: Page)
    ensures r.count == |Filtered(posts, active, query)|
    ensures r.noneFound <==> r.count == 0
    ensures r.featuredSection.Some? <==> FeaturedShown(posts, active, query)
    ensures r.featuredSection.Some? ==> r.featuredSection == FeaturedPost(posts)
    ensures forall p :: p in r.grid <==> p in Filtered(posts, active, query) && !p.featured
  {
    var filtered := Filtered(posts, active, query);
    var regular := NonFeatured(filtered);
    Page(
      if FeaturedShown(posts, active, query) then FeaturedPost(posts) else None,
      if query != "" then "Search Results" else "Latest Articles",
      |filtered|,
      CountLabel(|filtered|),
      if |filtered| > 0 then regular else [],
      |filtered| == 0)
  }

  /** The page with the grid leaving out only the post the featured
      section actually shows. */
  function Render(posts: seq<Post>, active: string, query: string): (r: Page)
    ensures r.count == |Filtered(posts, active, query)|
    ensures r.noneFound <==> r.count == 0
    ensures r.featuredSection.Some? <==> FeaturedShown(posts, active, query)
    ensures r.featuredSection.Some? ==> r.featuredSection == FeaturedPost(posts)
    ensures forall p :: p in r.grid <==> p in Filtered(posts, active, query) && Some(p) != r.featuredSection
  {
    var filtered := Filtered(posts, active, query);
    var shown := if FeaturedShown(posts, active, query) then FeaturedPost(posts) else None;
    Page(
      shown,
      if query != "" then "Search Results" else "Latest Articles",
      |filtered|,
      CountLabel(|filtered|),
      Keep(filtered, p => Some(p) != shown),
      |filtered| == 0)
  }

  /** An empty query matches every post and the 'all' tab every category. */
  lemma EmptyFiltersKeepAll(posts: seq<Post>)
    ensures Filtered(posts, "all", "") == posts
  {
    forall p | p in posts ensures Kept("all", "", p) {
      ContainsEmpty(Lower(p.title));
    }
    KeepAll(posts, p => Kept("all", "", p));
  }

  lemma {:induction false} KeepAll(posts: seq<Post>, f: Post -> bool)
    requires forall p :: p in posts ==> f(p)
    ensures Keep(posts, f) == posts
    decreases |posts|
  {
    if |posts| > 0 {
      KeepAll(posts[1..], f);
      assert [posts[0]] + posts[1..] == posts;
    }
  }

  /** The counted posts and the grid keep catalogue order, and the grid
      shows only counted posts. */
  lemma RenderKeepsOrder(posts: seq<Post>, active: string, query: string)
    ensures Subsequence(Filtered(posts, active, query), posts)
    ensures Subsequence(Render(posts, active, query).grid, Filtered(posts, active, query))
    ensures forall p :: p in Render(posts, active, query).grid ==> p in Filtered(posts, active, query)
  {
    KeepIsSubsequence(posts, p => Kept(active, query, p));
    var shown := Render(posts, active, query).featuredSection;
    KeepIsSubsequence(Filtered(posts, active, query), p => Some(p) != shown);
  }

  /** As written, a featured post that passes a non-trivial filter is
      counted but appears neither in the hidden featured section nor in the
      grid. */
  lemma FeaturedPostCountedButHidden(posts: seq<Post>, active: string, query: string)
    requires FeaturedPost(posts).Some?
    requires Kept(active, query, FeaturedPost(posts).value)
    requires query != "" || active != "all"
    ensures FeaturedPost(posts).value in Filtered(posts, active, query)
    ensures !Displayed(RenderAsWritten(posts, active, query), FeaturedPost(posts).value)
  {
  }

  /** With an empty search, a category tab other than 'All' keeps exactly
      the posts of that category. */
  lemma {:induction false} CategoryTabFilter(posts: seq<Post>, active: string)
    requires active != "all"
    ensures Filtered(posts, active, "") == OfCategory(posts, active)
    decreases |posts|
  {
    if |posts| > 0 {
      ContainsEmpty(Lower(posts[0].title));
      CategoryTabFilter(posts[1..], active);
    }
  }

  /** On the 'Product' tab the catalogue's featured post 1 is counted
      but appears nowhere on the page. */
  lemma ProductTabHidesFeaturedPost()
    ensures Posts[0] in Filtered(Posts, "product", "")
    ensures !Displayed(RenderAsWritten(Posts, "product", ""), Posts[0])
  {
    ContainsEmpty(Lower(Posts[0].title));
    FeaturedPostCountedButHidden(Posts, "product", "");
  }

  /** With the correction every counted post is on the page, and every post
      on the page is counted. */
  lemma CountedIffDisplayed(posts: seq<Post>, active: string, query: string, p: Post)
    ensures p in Filtered(posts, active, query) <==> Displayed(Render(posts, active, query), p)
  {
    if FeaturedShown(posts, active, query) {
      EmptyFiltersKeepAll(posts);
    }
  }

  /** The category a post's badge names, looked up by slug. */
  function CategoryFor(slug: string): (r: Option<Category>)
    ensures r.Some? ==> r.value in Categories && r.value.slug == slug
    ensures r.None? ==> forall i :: 0 <= i < |Categories| ==> Categories[i].slug != slug
  {
    if slug == "all" then Some(Categories[0])
    else if slug == "product" then Some(Categories[1])
    else if slug == "engineering" then Some(Categories[2])
    else if slug == "ai-trends" then Some(Categories[3])
    else None
  }

  /** Every post of the catalogue has a badge, and exactly one post is
      featured. */
  lemma CatalogueIsConsistent()
    ensures forall i :: 0 <= i < |Posts| ==> CategoryFor(Posts[i].category).Some?
    ensures FeaturedPost(Posts) == Some(Posts[0])
    ensures forall i :: 1 <= i < |Posts| ==> !Posts[i].featured
  {
  }
}
