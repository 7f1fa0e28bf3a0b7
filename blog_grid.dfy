/** The blog page: category buttons and a search box over the posts, the
    featured-post card, the grid of regular posts and the empty-state message. */
module BlogGrid {
  import opened Options
  import opened Seqs
  import opened Text

  /** The fields of a post that the filters read (`featured` absent reads as false). */
  datatype BlogPost = BlogPost(
    id: string,
    title: string,
    excerpt: string,
    category: string,
    tags: seq<string>,
    featured: bool)

  const AllCategories: string := "All"

  /** The posts the page lists, in order. */
  const Post1: BlogPost := BlogPost("1", "Seasonal Concrete Maintenance: Spring Cleaning Guide",
      "Learn the essential steps to prepare your concrete surfaces for spring and ensure they look their best throughout the season.",
      "Maintenance Tips", ["seasonal", "cleaning", "maintenance"], true)
  const Post2: BlogPost := BlogPost("2", "2024 Stamped Concrete Design Trends",
      "Discover the latest patterns and techniques shaping modern stamped concrete design this year.",
      "Design Trends", ["trends", "stamped", "design"], false)
  const Post3: BlogPost := BlogPost("3", "Understanding Concrete Curing: The Science Behind Strength",
      "A deep dive into the curing process and why proper curing is crucial for concrete durability.",
      "Technical Guides", ["curing", "science", "durability"], false)
  const Post4: BlogPost := BlogPost("4", "Luxury Pool Deck Transformation: Before & After",
      "See how we transformed an ordinary backyard into a stunning outdoor oasis with premium concrete work.",
      "Project Spotlights", ["pool-deck", "transformation", "luxury"], false)
  const Post5: BlogPost := BlogPost("5", "Common Concrete Cracks: Causes and Solutions",
      "Identify different types of concrete cracks and learn when professional repair is necessary.",
      "Technical Guides", ["cracks", "repair", "diagnosis"], false)
  const Post6: BlogPost := BlogPost("6", "Eco-Friendly Concrete: Sustainable Options for 2024",
      "Explore environmentally conscious concrete choices that don't compromise on quality or aesthetics.",
      "Design Trends", ["sustainable", "eco-friendly", "green"], false)
  const BlogPosts: seq<BlogPost> := [Post1, Post2, Post3, Post4, Post5, Post6]

  /** The category AND search predicate of `filteredPosts`. */
  predicate Matches(category: string, searchTerm: string, p: BlogPost)
  {
    && (category == AllCategories || p.category == category)
    && SearchMatches(p.title, p.excerpt, p.tags, searchTerm)
  }

  /** `filteredPosts`: exactly the matching posts, sound and complete. */
  function FilteredPosts(posts: seq<BlogPost>, category: string, searchTerm: string): (r: seq<BlogPost>)
    ensures forall p :: p in r ==> p in posts && Matches(category, searchTerm, p)
    ensures forall p :: p in posts && Matches(category, searchTerm, p) ==> p in r
  {
    Filter(p => Matches(category, searchTerm, p), posts)
  }

  /** The filtered posts keep the listing order, each matching post as often as listed. */
  lemma FilteredKeepsOrder(posts: seq<BlogPost>, category: string, searchTerm: string, p: BlogPost)
    ensures IsSubsequence(FilteredPosts(posts, category, searchTerm), posts)
    ensures multiset(FilteredPosts(posts, category, searchTerm))[p]
         == if Matches(category, searchTerm, p) then multiset(posts)[p] else 0
  {
    FilterIsSubsequence(p => Matches(category, searchTerm, p), posts);
    FilterMultiplicity(p => Matches(category, searchTerm, p), posts, p);
  }

  /** `featuredPost`: the first featured post of the whole list, not of the filtered one. */
  function FeaturedPost(posts: seq<BlogPost>): (r: Option<BlogPost>)
    ensures r.Some? ==> r.value in posts && r.value.featured
    ensures r.None? <==> forall p :: p in posts ==> !p.featured
  {
    Find((p: BlogPost) => p.featured, posts)
  }

  /** The featured post is the first one flagged. */
  lemma FeaturedIsFirst(posts: seq<BlogPost>, i: nat)
    requires i < |posts| && posts[i].featured
    requires forall j :: 0 <= j < i ==> !posts[j].featured
    ensures FeaturedPost(posts) == Some(posts[i])
  {
    FindIsFirst((p: BlogPost) => p.featured, posts, i);
  }

  /** `regularPosts`: the filtered posts that are not featured, in order. */
  function RegularPosts(filtered: seq<BlogPost>): seq<BlogPost>
  {
    Filter((p: BlogPost) => !p.featured, filtered)
  }

  /** The grid holds exactly the non-featured posts that match the filters. */
  lemma RegularPostsAreMatchingUnfeatured(posts: seq<BlogPost>, category: string, searchTerm: string)
    ensures RegularPosts(FilteredPosts(posts, category, searchTerm))
         == Filter(p => Matches(category, searchTerm, p) && !p.featured, posts)
    ensures IsSubsequence(RegularPosts(FilteredPosts(posts, category, searchTerm)), posts)
  {
    FilterTwice(p => Matches(category, searchTerm, p), (p: BlogPost) => !p.featured,
      p => Matches(category, searchTerm, p) && !p.featured, posts);
    FilterIsSubsequence(p => Matches(category, searchTerm, p) && !p.featured, posts);
  }

  /** `featuredPost && selectedCategory === 'All' && !searchTerm`. */
  predicate ShowsFeaturedCard(posts: seq<BlogPost>, category: string, searchTerm: string)
  {
    FeaturedPost(posts).Some? && category == AllCategories && searchTerm == ""
  }

  /** What the page shows: the featured card, the grid, and whether the
      "No articles found" message appears (`filteredPosts.length === 0`). */
  datatype View = View(card: Option<BlogPost>, grid: seq<BlogPost>, emptyState: bool)

  /** The blog's "Clear Filters" handler: category back to "All", search emptied. */
  function ClearFilters(category: string, searchTerm: string): (cleared: (string, string))
    ensures cleared.0 == AllCategories && cleared.1 == ""
  {
    (AllCategories, "")
  }

  /** After "Clear Filters" every post matches again, so the featured card
      returns whenever some post is featured. */
  lemma ClearFiltersShowsAll(posts: seq<BlogPost>, category: string, searchTerm: string)
    ensures var (c, t) := ClearFilters(category, searchTerm);
      FilteredPosts(posts, c, t) == posts && (ShowsFeaturedCard(posts, c, t) <==> FeaturedPost(posts).Some?)
  {
    forall p | p in posts ensures Matches(AllCategories, "", p) {
      EmptySearchMatches(p.title, p.excerpt, p.tags);
    }
    FilterKeepsAll(p => Matches(AllCategories, "", p), posts);
  }

  /** The page as written. */
  function PageView(posts: seq<BlogPost>, category: string, searchTerm: string): View
  {
    var filtered := FilteredPosts(posts, category, searchTerm);
    View(
      if ShowsFeaturedCard(posts, category, searchTerm) then FeaturedPost(posts) else None,
      RegularPosts(filtered),
      |filtered| == 0)
  }

  /** The featured card, when shown, holds the first featured post, and that
      post is one of the matches (with no filter, every post matches). */
  lemma FeaturedCardIsAMatch(posts: seq<BlogPost>, category: string, searchTerm: string)
    ensures var v := PageView(posts, category, searchTerm);
      && (v.card.Some? <==> FeaturedPost(posts).Some? && category == AllCategories && searchTerm == "")
      && (v.card.Some? ==> v.card.value.featured && v.card.value in FilteredPosts(posts, category, searchTerm))
  {
    var v := PageView(posts, category, searchTerm);
    if v.card.Some? {
      var f := v.card.value;
      EmptySearchMatches(f.title, f.excerpt, f.tags);
      assert Matches(category, searchTerm, f);
    }
  }

  /** The empty-state message follows the filtered posts, not the grid: it
      stays hidden whenever some post matches, even if the grid is empty. */
  lemma EmptyStateFollowsFilteredPosts(posts: seq<BlogPost>, category: string, searchTerm: string)
    ensures PageView(posts, category, searchTerm).emptyState
        <==> forall p :: p in posts ==> !Matches(category, searchTerm, p)
    ensures PageView(posts, category, searchTerm).emptyState ==> PageView(posts, category, searchTerm).grid == []
  {
    var filtered := FilteredPosts(posts, category, searchTerm);
    if filtered != [] {
      assert filtered[0] in filtered;
    }
  }

  /** Choosing the category "Maintenance Tips" matches one post, the featured
      one; the card is hidden because the category is not "All", the grid
      drops featured posts, and the empty-state message is hidden because a
      post matched: the page shows no article and no message. */
  lemma MaintenanceTipsShowsNothing()
    ensures FilteredPosts(BlogPosts, "Maintenance Tips", "") != []
    ensures PageView(BlogPosts, "Maintenance Tips", "") == View(None, [], false)
  {
    var category := "Maintenance Tips";
    var filtered := FilteredPosts(BlogPosts, category, "");
    EmptySearchMatches(Post1.title, Post1.excerpt, Post1.tags);
    assert Post1 in BlogPosts && Matches(category, "", Post1);
    assert filtered != [];
    OnlyFeaturedPostIsMaintenanceTip();
    FilterDropsAll((p: BlogPost) => !p.featured, filtered);
    assert category != AllCategories by { assert |category| != |AllCategories|; }
  }

  /** Every post in the category "Maintenance Tips" is featured. */
  lemma OnlyFeaturedPostIsMaintenanceTip()
    ensures forall p :: p in BlogPosts && p.category == "Maintenance Tips" ==> p.featured
  {
    var c := "Maintenance Tips";
    assert Post2.category[0] != c[0] && Post6.category[0] != c[0];
    assert Post3.category[0] != c[0] && Post5.category[0] != c[0];
    assert Post4.category[0] != c[0];
  }

  /** The page with the evident intent restored: while the featured card is
      hidden, featured posts that match are listed in the grid, and while it
      is shown the grid lists every other match. */
  function IntendedPageView(posts: seq<BlogPost>, category: string, searchTerm: string): View
  {
    var filtered := FilteredPosts(posts, category, searchTerm);
    if ShowsFeaturedCard(posts, category, searchTerm) then
      View(FeaturedPost(posts), Filter(p => Some(p) != FeaturedPost(posts), filtered), |filtered| == 0)
    else
      View(None, filtered, |filtered| == 0)
  }

  /** In the intended page every matching post is on screen, in the card or
      the grid, nothing else is, and the empty-state message appears exactly
      when nothing is on screen. */
  lemma IntendedViewShowsEveryMatch(posts: seq<BlogPost>, category: string, searchTerm: string)
    ensures var v := IntendedPageView(posts, category, searchTerm);
      forall p :: p in posts && Matches(category, searchTerm, p) <==> (v.card == Some(p) || p in v.grid)
    ensures var v := IntendedPageView(posts, category, searchTerm);
      v.emptyState <==> v.card.None? && v.grid == []
  {
    var v := IntendedPageView(posts, category, searchTerm);
    var filtered := FilteredPosts(posts, category, searchTerm);
    if ShowsFeaturedCard(posts, category, searchTerm) {
      var f := FeaturedPost(posts).value;
      EmptySearchMatches(f.title, f.excerpt, f.tags);
      assert Matches(category, searchTerm, f);
      assert f in filtered;
    } else if v.grid != [] {
      assert v.grid[0] in v.grid;
    }
  }
}
