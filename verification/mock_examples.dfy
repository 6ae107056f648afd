/** The filter run on the sample postings: what each drop-down and a few
    search terms keep. */
module MockExamples {
  import opened Strings
  import opened Types
  import opened Constants
  import opened FilterState
  import opened PostFilter

  /** The filter on the sample data, given which of the five postings pass. */
  lemma FilterMockPosts(c: Criteria, m1: bool, m2: bool, m3: bool, m4: bool, m5: bool)
    requires Matches(Post1, c) == m1 && Matches(Post2, c) == m2 && Matches(Post3, c) == m3
    requires Matches(Post4, c) == m4 && Matches(Post5, c) == m5
    ensures Filter(MockPosts, c) == KeepWhen(m1, Post1) + (KeepWhen(m2, Post2) + (KeepWhen(m3, Post3) + (KeepWhen(m4, Post4) + KeepWhen(m5, Post5))))
  {
    var m := MockPosts;
    assert m[4..][1..] == [];
    FilterHead(m[4..], c);
    assert Filter(m[4..], c) == KeepWhen(m5, Post5);
    assert m[3..][1..] == m[4..];
    FilterHead(m[3..], c);
    assert Filter(m[3..], c) == KeepWhen(m4, Post4) + KeepWhen(m5, Post5);
    assert m[2..][1..] == m[3..];
    FilterHead(m[2..], c);
    assert Filter(m[2..], c) == KeepWhen(m3, Post3) + (KeepWhen(m4, Post4) + KeepWhen(m5, Post5));
    assert m[1..][1..] == m[2..];
    FilterHead(m[1..], c);
    assert Filter(m[1..], c) == KeepWhen(m2, Post2) + (KeepWhen(m3, Post3) + (KeepWhen(m4, Post4) + KeepWhen(m5, Post5)));
    FilterHead(m, c);
  }

  lemma AreaSeoulExample()
    ensures Ids(Filter(MockPosts, Initial.(area := "서울"))) == ["1", "4"]
  {
    FilterMockPosts(Initial.(area := "서울"), true, false, false, true, false);
  }

  lemma ExperienceNewcomerExample()
    ensures Ids(Filter(MockPosts, Initial.(experience := "신입"))) == ["2", "5"]
  {
    FilterMockPosts(Initial.(experience := "신입"), false, true, false, false, true);
  }

  /** The listed experience value "경력무관" and the "all" entry that carries
      the same caption select different postings. */
  lemma AnyExperienceExample()
    ensures Ids(Filter(MockPosts, Initial.(experience := "경력무관"))) == ["4"]
    ensures Filter(MockPosts, Initial.(experience := All)) == MockPosts
  {
    FilterMockPosts(Initial.(experience := "경력무관"), false, false, false, true, false);
    assert Initial.(experience := All) == Initial;
    InitialShowsEverything(MockPosts, Initial);
  }

  /** With only the search box set, the filter on the sample data, given
      which of the five postings contain the term. */
  lemma SearchMockPosts(term: string, m1: bool, m2: bool, m3: bool, m4: bool, m5: bool)
    requires MatchSearch(Post1, term) == m1 && MatchSearch(Post2, term) == m2 && MatchSearch(Post3, term) == m3
    requires MatchSearch(Post4, term) == m4 && MatchSearch(Post5, term) == m5
    ensures Filter(MockPosts, Initial.(searchTerm := term))
         == KeepWhen(m1, Post1) + (KeepWhen(m2, Post2) + (KeepWhen(m3, Post3) + (KeepWhen(m4, Post4) + KeepWhen(m5, Post5))))
  {
    SearchOnly(Post1, term);
    SearchOnly(Post2, term);
    SearchOnly(Post3, term);
    SearchOnly(Post4, term);
    SearchOnly(Post5, term);
    FilterMockPosts(Initial.(searchTerm := term), m1, m2, m3, m4, m5);
  }

  /** With only the search box set, passing the criteria is passing the
      search. */
  lemma SearchOnly(p: JobPost, term: string)
    ensures Matches(p, Initial.(searchTerm := term)) == MatchSearch(p, term)
  {
  }

  /** "꿈나무" occurs only in the second posting, at the start of both its
      title and its institution name. (The term is a parameter so that the
      verifier reasons about the search instead of evaluating it.) */
  lemma SearchInstitutionNameExample(term: string)
    requires term == "꿈나무"
    ensures Ids(Filter(MockPosts, Initial.(searchTerm := term))) == ["2"]
  {
    DreamTreeOccurrences(term);
    SearchMockPosts(term, false, true, false, false, false);
    OnlySecond(Post1, Post2, Post3, Post4, Post5);
    IdsOfOne(Post2);
  }

  /** "어린이집" occurs in the second and fourth postings, the two daycare
      centres. */
  lemma SearchDaycareExample(term: string)
    requires term == "어린이집"
    ensures Ids(Filter(MockPosts, Initial.(searchTerm := term))) == ["2", "4"]
  {
    DaycareOccurrences(term);
    SearchMockPosts(term, false, true, false, true, false);
    SecondAndFourth(Post1, Post2, Post3, Post4, Post5);
    IdsOfTwo(Post2, Post4);
  }

  lemma DreamTreeOccurrences(term: string)
    requires term == "꿈나무"
    ensures !MatchSearch(Post1, term) && MatchSearch(Post2, term) && !MatchSearch(Post3, term)
    ensures !MatchSearch(Post4, term) && !MatchSearch(Post5, term)
  {
    DreamTreeNotIn1();
    DreamTreeIn2();
    DreamTreeNotIn3();
    DreamTreeNotIn4();
    DreamTreeNotIn5();
  }

  lemma DaycareOccurrences(term: string)
    requires term == "어린이집"
    ensures !MatchSearch(Post1, term) && MatchSearch(Post2, term) && !MatchSearch(Post3, term)
    ensures MatchSearch(Post4, term) && !MatchSearch(Post5, term)
  {
    DaycareNotIn1();
    DaycareIn2();
    DaycareNotIn3();
    DaycareIn4();
    DaycareNotIn5();
  }

  // Where the two search terms occur in the sample postings, one posting at
  // a time.

  lemma DreamTreeIn2() ensures MatchSearch(Post2, "꿈나무") {
    assert OccursAt("꿈나무", Post2.title, 0);
    IncludesIffSubstring("꿈나무", Post2.title);
  }

  lemma DreamTreeNotIn1() ensures !MatchSearch(Post1, "꿈나무") { NotFound(Post1, "꿈나무"); }
  lemma DreamTreeNotIn3() ensures !MatchSearch(Post3, "꿈나무") { NotFound(Post3, "꿈나무"); }
  lemma DreamTreeNotIn4() ensures !MatchSearch(Post4, "꿈나무") { NotFound(Post4, "꿈나무"); }
  lemma DreamTreeNotIn5() ensures !MatchSearch(Post5, "꿈나무") { NotFound(Post5, "꿈나무"); }

  lemma DaycareIn2() ensures MatchSearch(Post2, "어린이집") {
    assert OccursAt("어린이집", Post2.title, 4);
    IncludesIffSubstring("어린이집", Post2.title);
  }

  lemma DaycareIn4() ensures MatchSearch(Post4, "어린이집") {
    assert OccursAt("어린이집", Post4.title, 9);
    IncludesIffSubstring("어린이집", Post4.title);
  }

  lemma DaycareNotIn1() ensures !MatchSearch(Post1, "어린이집") { NotFound(Post1, "어린이집"); }
  lemma DaycareNotIn3() ensures !MatchSearch(Post3, "어린이집") { NotFound(Post3, "어린이집"); }
  lemma DaycareNotIn5() ensures !MatchSearch(Post5, "어린이집") { NotFound(Post5, "어린이집"); }

  // The shapes of the two search results, for any five postings.

  lemma OnlySecond(a: JobPost, b: JobPost, c: JobPost, d: JobPost, e: JobPost)
    ensures KeepWhen(false, a) + (KeepWhen(true, b) + (KeepWhen(false, c) + (KeepWhen(false, d) + KeepWhen(false, e)))) == [b]
  {
  }

  lemma SecondAndFourth(a: JobPost, b: JobPost, c: JobPost, d: JobPost, e: JobPost)
    ensures KeepWhen(false, a) + (KeepWhen(true, b) + (KeepWhen(false, c) + (KeepWhen(true, d) + KeepWhen(false, e)))) == [b, d]
  {
  }

  lemma IdsOfOne(p: JobPost)
    ensures Ids([p]) == [p.id]
  {
  }

  lemma IdsOfTwo(p: JobPost, q: JobPost)
    ensures Ids([p, q]) == [p.id, q.id]
  {
  }

  /** A term whose first character appears in neither the title nor the
      institution name does not pass the search. */
  lemma NotFound(p: JobPost, term: string)
    requires |term| > 0
    requires forall i :: 0 <= i < |p.title| ==> p.title[i] != term[0]
    requires forall i :: 0 <= i < |p.institutionName| ==> p.institutionName[i] != term[0]
    ensures !MatchSearch(p, term)
  {
    AbsentFirstChar(term, p.title);
    AbsentFirstChar(term, p.institutionName);
  }
}
