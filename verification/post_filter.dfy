/** The posting filter: the list the page shows is the list of postings,
    in their original order, that pass all four criteria. */
module PostFilter {
  import opened Wrappers
  import opened Seqs
  import opened Strings
  import opened Types
  import opened FilterState

  /** The search box: an empty term passes everything; otherwise the term
      must occur in the title or in the institution name. */
  predicate MatchSearch(p: JobPost, term: string) {
    term == "" || Includes(term, p.title) || Includes(term, p.institutionName)
  }

  /** A drop-down criterion: "all" passes everything; any other value must be
      exactly the label of the posting's field. */
  predicate MatchArea(p: JobPost, area: string) {
    area == All || p.area.Label() == area
  }

  predicate MatchCategory(p: JobPost, category: string) {
    category == All || p.category.Label() == category
  }

  predicate MatchExperience(p: JobPost, experience: string) {
    experience == All || p.experience.Label() == experience
  }

  /** A posting passes the criteria when it passes all four of them. */
  predicate Matches(p: JobPost, c: Criteria) {
    && MatchSearch(p, c.searchTerm)
    && MatchArea(p, c.area)
    && MatchCategory(p, c.category)
    && MatchExperience(p, c.experience)
  }

  /** The postings of `posts` that pass `c`. */
  function Filter(posts: seq<JobPost>, c: Criteria): (r: seq<JobPost>)
    ensures |r| <= |posts|
  {
    if posts == [] then []
    else if Matches(posts[0], c) then [posts[0]] + Filter(posts[1..], c)
    else Filter(posts[1..], c)
  }

  /** Soundness and completeness: a posting is in the result exactly when it
      is in the input and passes all four criteria. */
  lemma {:induction false} FilterMembers(posts: seq<JobPost>, c: Criteria)
    ensures forall p :: p in Filter(posts, c) <==> p in posts && Matches(p, c)
    decreases |posts|
  {
    if posts != [] {
      FilterMembers(posts[1..], c);
      assert forall p :: p in posts <==> p == posts[0] || p in posts[1..];
    }
  }

  /** `[p]` when `keep` holds, nothing otherwise. */
  function KeepWhen(keep: bool, p: JobPost): seq<JobPost> {
    if keep then [p] else []
  }

  /** One step of the filter: the head is kept exactly when it passes. */
  lemma FilterHead(posts: seq<JobPost>, c: Criteria)
    requires posts != []
    ensures Filter(posts, c) == KeepWhen(Matches(posts[0], c), posts[0]) + Filter(posts[1..], c)
  {
  }

  /** `idx` lists, in increasing order, exactly the positions in `posts`
      whose postings pass `c`. */
  ghost predicate ListsPassing(idx: seq<nat>, posts: seq<JobPost>, c: Criteria) {
    && (forall k :: 0 <= k < |idx| ==> idx[k] < |posts|)
    && (forall k, l :: 0 <= k < l < |idx| ==> idx[k] < idx[l])
    && (forall i :: 0 <= i < |posts| ==> (i in idx <==> Matches(posts[i], c)))
  }

  /** The positions in `posts` of the postings that pass all four criteria. */
  function KeptIndices(posts: seq<JobPost>, c: Criteria): seq<nat>
  {
    if posts == [] then []
    else (if Matches(posts[0], c) then [0] else []) + Shift(KeptIndices(posts[1..], c))
  }

  /** `KeptIndices` lists, in increasing order, exactly the positions whose
      postings pass. */
  lemma {:induction false} KeptIndicesListsPassing(posts: seq<JobPost>, c: Criteria)
    ensures ListsPassing(KeptIndices(posts, c), posts, c)
    decreases |posts|
  {
    if posts != [] {
      KeptIndicesListsPassing(posts[1..], c);
      ListsPassingCons(posts, c, KeptIndices(posts[1..], c));
    }
  }

  /** Extending the positions for the tail to the positions for the whole. */
  lemma ListsPassingCons(posts: seq<JobPost>, c: Criteria, tail: seq<nat>)
    requires posts != [] && ListsPassing(tail, posts[1..], c)
    ensures ListsPassing((if Matches(posts[0], c) then [0] else []) + Shift(tail), posts, c)
  {
    var rest := Shift(tail);
    forall i | 1 <= i < |posts|
      ensures i in rest <==> Matches(posts[i], c)
    {
      assert posts[1..][i - 1] == posts[i];
      if i - 1 in tail {
        var k :| 0 <= k < |tail| && tail[k] == i - 1;
        assert rest[k] == i;
      }
    }
    assert 0 !in rest;
  }

  /** The filter keeps exactly the postings at `KeptIndices`, unchanged and
      in their original order: the result is a sub-sequence of the input. */
  lemma {:induction false} FilterPicksKeptIndices(posts: seq<JobPost>, c: Criteria)
    ensures Embeds(KeptIndices(posts, c), Filter(posts, c), posts)
    ensures IsSubsequence(Filter(posts, c), posts)
    decreases |posts|
  {
    if posts != [] {
      var keep := Matches(posts[0], c);
      var tail := KeptIndices(posts[1..], c);
      var sub := Filter(posts[1..], c);
      FilterPicksKeptIndices(posts[1..], c);
      EmbedsShift(tail, sub, posts);
      if keep {
        EmbedsPrepend(Shift(tail), sub, posts);
        assert KeptIndices(posts, c) == [0] + Shift(tail);
      } else {
        assert KeptIndices(posts, c) == [] + Shift(tail) == Shift(tail);
      }
    }
  }

  /** The filter distributes over concatenation. */
  lemma {:induction false} FilterAppend(a: seq<JobPost>, b: seq<JobPost>, c: Criteria)
    ensures Filter(a + b, c) == Filter(a, c) + Filter(b, c)
    decreases |a|
  {
    if a != [] {
      assert (a + b)[1..] == a[1..] + b;
      FilterAppend(a[1..], b, c);
    } else {
      assert a + b == b;
    }
  }

  /** `posts.filter(...)` as JavaScript runs it: one pass from the left,
      appending every posting that passes. */
  method FilterPosts(posts: seq<JobPost>, c: Criteria) returns (r: seq<JobPost>)
    ensures r == Filter(posts, c)
  {
    r := [];
    var i := 0;
    while i < |posts|
      invariant 0 <= i <= |posts|
      invariant r == Filter(posts[..i], c)
    {
      FilterAppend(posts[..i], [posts[i]], c);
      assert posts[..i + 1] == posts[..i] + [posts[i]];
      if Matches(posts[i], c) {
        r := r + [posts[i]];
      }
      i := i + 1;
    }
    assert posts[..i] == posts;
  }

  /** If every posting passes, nothing is dropped. */
  lemma {:induction false} FilterKeepsAllWhenAllMatch(posts: seq<JobPost>, c: Criteria)
    requires forall p :: p in posts ==> Matches(p, c)
    ensures Filter(posts, c) == posts
    decreases |posts|
  {
    if posts != [] {
      FilterKeepsAllWhenAllMatch(posts[1..], c);
    }
  }

  /** The first render shows every posting, and so does every render after
      either "clear filters" button. */
  lemma {:induction false} InitialShowsEverything(posts: seq<JobPost>, c: Criteria)
    ensures Filter(posts, Initial) == posts
    ensures Filter(posts, Step(c, ClearFilters)) == posts
    ensures !IsActive(Step(c, ClearFilters))
  {
    FilterKeepsAllWhenAllMatch(posts, Initial);
    ClearRestoresInitial(c);
  }

  /** The explicit `searchTerm === ''` test agrees with plain substring
      matching, since the empty term occurs in every title. */
  lemma ShortCircuitAgrees(p: JobPost, term: string)
    ensures MatchSearch(p, term) <==> IsSubstring(term, p.title) || IsSubstring(term, p.institutionName)
  {
    if term == "" {
      EmptyIsSubstring(p.title);
    }
    IncludesIffSubstring(term, p.title);
    IncludesIffSubstring(term, p.institutionName);
  }

  /** Every kept posting contains the search term in its title or its
      institution name. */
  lemma {:induction false} FilterSearchSound(posts: seq<JobPost>, c: Criteria)
    ensures forall p :: p in Filter(posts, c) ==>
              IsSubstring(c.searchTerm, p.title) || IsSubstring(c.searchTerm, p.institutionName)
  {
    FilterMembers(posts, c);
    forall p | p in Filter(posts, c)
      ensures IsSubstring(c.searchTerm, p.title) || IsSubstring(c.searchTerm, p.institutionName)
    {
      ShortCircuitAgrees(p, c.searchTerm);
    }
  }

  /** Whether a posting passes depends on its title, institution name, area,
      category and experience only: its id, content, location, salary,
      dates, institution type and tags are never looked at. */
  lemma MatchesIgnoresOtherFields(p: JobPost, q: JobPost, c: Criteria)
    requires p.title == q.title && p.institutionName == q.institutionName
    requires p.area == q.area && p.category == q.category && p.experience == q.experience
    ensures Matches(p, c) <==> Matches(q, c)
  {
  }

  /** A drop-down set to anything but "all" keeps only postings whose field
      carries exactly that label. */
  lemma {:induction false} FilterSelectorsSound(posts: seq<JobPost>, c: Criteria)
    ensures c.area != All ==> forall p :: p in Filter(posts, c) ==> p.area.Label() == c.area
    ensures c.category != All ==> forall p :: p in Filter(posts, c) ==> p.category.Label() == c.category
    ensures c.experience != All ==> forall p :: p in Filter(posts, c) ==> p.experience.Label() == c.experience
  {
    FilterMembers(posts, c);
  }

  /** A drop-down value that is neither "all" nor a label (the page never
      offers one) keeps nothing. */
  lemma {:induction false} FilterUnknownValueEmpty(posts: seq<JobPost>, c: Criteria)
    requires (c.area != All && ParseArea(c.area).None?)
          || (c.category != All && ParseCategory(c.category).None?)
          || (c.experience != All && ParseExperience(c.experience).None?)
    ensures Filter(posts, c) == []
  {
    forall p | p in posts
      ensures !Matches(p, c)
    {
    }
    FilterDropsAllWhenNoneMatch(posts, c);
  }

  /** If no posting passes, the list comes out empty. */
  lemma {:induction false} FilterDropsAllWhenNoneMatch(posts: seq<JobPost>, c: Criteria)
    requires forall p :: p in posts ==> !Matches(p, c)
    ensures Filter(posts, c) == []
    decreases |posts|
  {
    if posts != [] {
      FilterDropsAllWhenNoneMatch(posts[1..], c);
    }
  }

  /** Filtering twice with the same criteria is filtering once. */
  lemma {:induction false} FilterIdempotent(posts: seq<JobPost>, c: Criteria)
    ensures Filter(Filter(posts, c), c) == Filter(posts, c)
  {
    FilterMembers(posts, c);
    FilterKeepsAllWhenAllMatch(Filter(posts, c), c);
  }

  /** `d` is at least as strict as `c`: each criterion of `c` is neutral or
      the same as in `d`. */
  predicate AtLeastAsStrict(d: Criteria, c: Criteria) {
    forall f :: Get(c, f) == Neutral(f) || Get(c, f) == Get(d, f)
  }

  /** Stricter criteria keep a subset of what laxer criteria keep. */
  lemma StricterMatchesLess(p: JobPost, d: Criteria, c: Criteria)
    requires AtLeastAsStrict(d, c) && Matches(p, d)
    ensures Matches(p, c)
  {
    assert Get(c, SearchField) == Neutral(SearchField) || Get(c, SearchField) == Get(d, SearchField);
    assert Get(c, AreaField) == Neutral(AreaField) || Get(c, AreaField) == Get(d, AreaField);
    assert Get(c, CategoryField) == Neutral(CategoryField) || Get(c, CategoryField) == Get(d, CategoryField);
    assert Get(c, ExperienceField) == Neutral(ExperienceField) || Get(c, ExperienceField) == Get(d, ExperienceField);
  }

  /** Filtering by one criterion and then another is filtering by both, in
      either order. */
  lemma {:induction false} FilterCommutes(posts: seq<JobPost>, c: Criteria, d: Criteria)
    ensures Filter(Filter(posts, c), d) == Filter(Filter(posts, d), c)
    decreases |posts|
  {
    if posts != [] {
      FilterCommutes(posts[1..], c, d);
    }
  }

  /** Narrowing the criteria narrows the result: the stricter result is the
      laxer result filtered again, hence a sub-sequence of it. */
  lemma {:induction false} FilterNarrows(posts: seq<JobPost>, c: Criteria, d: Criteria)
    requires AtLeastAsStrict(d, c)
    ensures Filter(posts, d) == Filter(Filter(posts, d), c)
    ensures Filter(posts, d) == Filter(Filter(posts, c), d)
    ensures IsSubsequence(Filter(posts, d), Filter(posts, c))
  {
    FilterMembers(posts, d);
    forall p | p in Filter(posts, d)
      ensures Matches(p, c)
    {
      StricterMatchesLess(p, d, c);
    }
    FilterKeepsAllWhenAllMatch(Filter(posts, d), c);
    FilterCommutes(posts, c, d);
    FilterPicksKeptIndices(Filter(posts, c), d);
  }

  /** Event `e` sets one criterion that was neutral before. */
  predicate TightensNeutral(c: Criteria, e: Event) {
    !e.ClearFilters? && Get(c, Target(e)) == Neutral(Target(e))
  }

  /** Moving one criterion off neutral keeps a sub-sequence of what was shown
      before. */
  lemma {:induction false} TightenOneNarrows(posts: seq<JobPost>, c: Criteria, e: Event)
    requires TightensNeutral(c, e)
    ensures IsSubsequence(Filter(posts, Step(c, e)), Filter(posts, c))
    ensures |Filter(posts, Step(c, e))| <= |Filter(posts, c)|
  {
    var d := Step(c, e);
    assert AtLeastAsStrict(d, c);
    FilterNarrows(posts, c, d);
  }

  /** The criteria restricted to one field, the others neutral. */
  function Only(c: Criteria, f: Field): (r: Criteria)
    ensures Get(r, f) == Get(c, f)
    ensures forall g :: g != f ==> Get(r, g) == Neutral(g)
  {
    match f
    case SearchField => Initial.(searchTerm := c.searchTerm)
    case AreaField => Initial.(area := c.area)
    case CategoryField => Initial.(category := c.category)
    case ExperienceField => Initial.(experience := c.experience)
  }

  /** The combined filter is the four single-criterion filters applied one
      after the other. */
  lemma {:induction false} FilterIsConjunction(posts: seq<JobPost>, c: Criteria)
    ensures Filter(posts, c) ==
            Filter(Filter(Filter(Filter(posts, Only(c, SearchField)), Only(c, AreaField)), Only(c, CategoryField)), Only(c, ExperienceField))
    decreases |posts|
  {
    if posts != [] {
      FilterIsConjunction(posts[1..], c);
    }
  }
}
