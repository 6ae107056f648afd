# Kindergarten and daycare job board: the posting filter

The job board lists teaching postings from kindergartens (유치원), daycare
centres (어린이집) and other institutions. Above the list, the page offers a
free-text search box and three drop-downs: region (지역), job category
(구인직종) and experience (경력). The list shows the postings that pass all
four criteria, in their original order. A "clear filters" link appears as
soon as any criterion is set. The empty-result panel offers a second button
that does the same reset.

This project models that core in Dafny:

- `Types` (types.dfy) holds the enumerations of the posting record as
  datatypes, each value carrying its stored Korean label:
  - institution type;
  - job category;
  - experience level;
  - region.

  It also holds the `JobPost` record, the `AISummaryResponse` record, and
  parsers from a label back to its enumeration value.
- `Constants` (constants.dfy) holds the drop-down option lists and the five
  sample postings the page starts with.
- `FilterState` (filter_state.dfy) holds the four criteria, their initial
  values, the "filter active" test, and the events that change the criteria:
  typing, picking a drop-down value, and either reset button. It also holds
  the drop-down entries the page renders, as value/caption pairs.
- `PostFilter` (post_filter.dfy) holds the filter itself, as a recursive
  function and as a one-pass loop. Its lemmas cover:
  - soundness and completeness;
  - order preservation, shown by an explicit index embedding;
  - idempotence and commutation;
  - narrowing when a criterion is tightened;
  - the filter as a conjunction of four single-criterion filters;
  - agreement of the search short-circuit with plain substring search.
- `Strings` (strings.dfy) models `String.prototype.includes` and proves it
  equal to "occurs at some position".
- `Seqs` (seqs.dfy) holds generic sequence facts: no duplicates, and the
  sub-sequence embedding.
- `Wrappers` (wrappers.dfy) holds `Option`.
- `MockExamples` (mock_examples.dfy) states what the filter keeps from the
  sample postings for several concrete criteria.

A posting's enumerated fields and the drop-down values are both plain strings
in the application. JavaScript compares them with `===`. The model keeps the
criteria as strings and compares them with the posting field's `Label()`,
which is the same comparison.

## Model

| member | source | states |
|---|---|---|
| PostFilter.Filter | App.tsx:38-46 | the filtered list is never longer than the list of postings |
| PostFilter.FilterMembers | App.tsx:37-47 | a posting is in the filtered list exactly when it is in the input list and passes all four criteria |
| PostFilter.KeptIndicesListsPassing | App.tsx:38-46 | the positions `KeptIndices` returns are increasing and in range, and a position is listed exactly when the posting there passes the criteria |
| PostFilter.FilterPicksKeptIndices | App.tsx:38-46 | the filtered list is the input's postings at exactly those positions, unchanged and in their original order, so it is a sub-sequence of the input |
| PostFilter.FilterPosts | App.tsx:38-46 | the left-to-right pass of `Array.prototype.filter` produces the same list as the recursive definition |
| PostFilter.FilterKeepsAllWhenAllMatch | App.tsx:38-46 | when every posting passes, the filter returns the input list itself |
| PostFilter.FilterDropsAllWhenNoneMatch | App.tsx:38-46 | when no posting passes, the filter returns the empty list |
| PostFilter.InitialShowsEverything | App.tsx:18-21 | with the initial criteria, or after either reset, every posting is shown and the filter is not active |
| PostFilter.ShortCircuitAgrees | App.tsx:39-41 | the explicit empty-term test followed by the two `includes` calls accepts a posting exactly when the term occurs as a substring of the title or of the institution name |
| PostFilter.FilterSearchSound | App.tsx:39-41 | every kept posting contains the search term in its title or its institution name |
| PostFilter.MatchesIgnoresOtherFields | App.tsx:38-45 | two postings that agree on title, institution name, area, category and experience pass or fail together; content, location, tags, salary, dates, id and institution type are never consulted |
| PostFilter.FilterSelectorsSound | App.tsx:42-44 | a drop-down set to anything other than 전체 keeps only postings whose field has exactly that label |
| PostFilter.FilterUnknownValueEmpty | App.tsx:42-44 | a drop-down value that is neither 전체 nor a label of the enumeration keeps nothing |
| PostFilter.FilterIdempotent | App.tsx:37-47 | filtering the filtered list again with the same criteria changes nothing |
| PostFilter.FilterCommutes | App.tsx:37-47 | filtering by two sets of criteria gives the same list in either order |
| PostFilter.StricterMatchesLess | App.tsx:39-45 | a posting that passes stricter criteria passes any laxer criteria |
| PostFilter.FilterNarrows | App.tsx:37-47 | the result for stricter criteria is the laxer result filtered again, and a sub-sequence of it |
| PostFilter.TightenOneNarrows | App.tsx:67-108 | setting one neutral criterion through the search box or a drop-down yields a sub-sequence of the list shown before, no longer than it |
| PostFilter.FilterIsConjunction | App.tsx:45 | the combined filter equals the search, area, category and experience filters applied one after another |
| Strings.IncludesIffSubstring | App.tsx:40-41 | the model of `includes` answers true exactly when the needle occurs at some position of the haystack |
| Strings.EmptyIsSubstring | App.tsx:39-41 | the empty term occurs in every string, so `includes` would also accept it |
| Strings.AbsentFirstChar | App.tsx:40-41 | a non-empty term whose first character never appears in a string does not occur in it |
| FilterState.IsActive | App.tsx:115 | the reset link is shown exactly when the criteria differ from the initial criteria, that is, when some criterion is not neutral |
| FilterState.Step | App.tsx:67-117 | a reset sets every criterion back to neutral and leaves the filter inactive; typing or picking sets exactly one criterion to the new value and leaves the other three unchanged |
| FilterState.ClearRestoresInitial | App.tsx:154 | the four assignments of a reset handler (here and at App.tsx:117) give back the initial criteria of App.tsx:18-21 whatever came before, so resetting twice equals resetting once |
| FilterState.Options | App.tsx:86-87 | a drop-down has one more entry than its value list: first the 전체 entry with its own caption, then one entry per listed value, in order, captioned by the value itself (likewise App.tsx:98-99 and 110-111) |
| FilterState.OptionValuesDistinct | App.tsx:86-111 | 전체 is not among the listed values, so every entry of each drop-down stores a different value |
| FilterState.ExperienceCaptionClash | App.tsx:110-111 | the experience drop-down shows the caption 경력무관 on both its first entry and its sixth, and the two store different values (전체 and 경력무관) |
| FilterState.SelectableValuesParse | App.tsx:86-111 | a drop-down value the page offers is either 전체 or the label of exactly one enumeration value |
| FilterState.StepKeepsSelectable | App.tsx:84-117 | starting from offered values, every control event leaves each drop-down holding a value it offers |
| FilterState.InitialSelectable | App.tsx:18-21 | the initial criteria hold offered drop-down values and the filter starts inactive |
| Types.ParseInstitutionType | types.ts:2-6 | a label reads back as the institution type carrying it, and it reads back as nothing exactly when no institution type carries it |
| Types.ParseCategory | types.ts:8 | a label reads back as the job category carrying it, and it reads back as nothing exactly when no category carries it |
| Types.ParseExperience | types.ts:9 | a label reads back as the experience level carrying it, and it reads back as nothing exactly when no level carries it |
| Types.ParseArea | types.ts:10 | a label reads back as the region carrying it, and it reads back as nothing exactly when no region carries it |
| Types.InstitutionTypeClosed | types.ts:2-6 | there are exactly three institution types, each listed once, with pairwise distinct labels that parse back to them |
| Types.CategoryClosed | types.ts:8 | there are exactly nine job categories, each listed once, with pairwise distinct labels that parse back to them |
| Types.ExperienceClosed | types.ts:9 | there are exactly five experience levels, each listed once, with pairwise distinct labels that parse back to them |
| Types.AreaClosed | types.ts:10 | there are exactly eight regions, each listed once, with pairwise distinct labels that parse back to them |
| Types.LabelsInjective | types.ts:8-10 | equal labels mean equal values for category, experience and region |
| Constants.OptionListsMatchEnumerations | constants.ts:4-6 | each drop-down list is, position by position, the labels of its enumeration, so a string is listed exactly when it parses as a value |
| Constants.OptionListsDistinct | constants.ts:4-6 | no drop-down list repeats a value |
| Constants.MockPostIds | constants.ts:8-84 | the sample data holds five postings with the distinct ids 1 to 5 |
| MockExamples.FilterMockPosts | constants.ts:8-84 | the filter on the sample data keeps, in order, exactly those of the five postings that pass |
| MockExamples.AreaSeoulExample | constants.ts:16-61 | region 서울 keeps postings 1 and 4 |
| MockExamples.ExperienceNewcomerExample | constants.ts:33-78 | experience 신입 keeps postings 2 and 5 |
| MockExamples.AnyExperienceExample | constants.ts:63 | the listed value 경력무관 keeps only posting 4, while the 전체 entry captioned 경력무관 keeps all five |
| MockExamples.SearchInstitutionNameExample | constants.ts:26-27 | searching 꿈나무 keeps only posting 2 |
| MockExamples.SearchDaycareExample | constants.ts:26-57 | searching 어린이집 keeps postings 2 and 4, the two daycare centres |

## Left out

- The AI summary service, `services/geminiService.ts`, is not part of this model. It is a call into the Google GenAI SDK, parses vendor JSON, reads an environment key, and falls back to fixed literals. `AISummaryResponse` is modelled as a record only, since no operation of the core computes one.
- The selection flow in `handleSelectPost` (App.tsx:23-35) is left out. It is an awaited network call that sets the modal and loading flags; that is concurrency and UI state.
- The components (`Header`, `PostCard`, `JobDetailModal`, `AIAssistant`) are left out. They only render, or dispatch to the AI service.
- Rendering is left out: the result count (App.tsx:131) and the card grid. The count is the length of `PostFilter.Filter`.
- Sorting is left out. The 최신순 and 마감임박순 buttons (App.tsx:134-135) have no handler.
- `deadline`, `createdAt`, `salary`, `location` and `content` are opaque strings, and `tags` is an ordered list of them. The filter never reads them, and nothing parses the dates.
- Strings.Includes: Dafny characters are Unicode scalar values, while JavaScript strings are UTF-16 code units. Both give the same result for text without astral-plane characters, such as every literal here. Search on text that contains surrogate pairs is not modelled.
- `useMemo` caching (App.tsx:37, 47) is left out. The filter is a pure function of the postings and the criteria, so recomputing it gives the same list.
