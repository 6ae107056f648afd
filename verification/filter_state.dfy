/** The four filter criteria the page keeps, how the page's controls change
    them, and the drop-down options those controls offer. */
module FilterState {
  import opened Seqs
  import opened Types
  import opened Constants

  /** The value a drop-down holds when it does not filter ("all"). */
  const All: string := "전체"

  /** The filter criteria. The three drop-down criteria are plain strings,
      exactly as the page stores them; `All` switches a drop-down off, and the
      empty string switches the search off. */
  datatype Criteria = Criteria(searchTerm: string, area: string, category: string, experience: string)

  /** The criteria the page starts with. */
  const Initial: Criteria := Criteria("", All, All, All)

  /** One of the four criteria, for stating what an edit leaves alone. */
  datatype Field = SearchField | AreaField | CategoryField | ExperienceField

  function Get(c: Criteria, f: Field): string {
    match f
    case SearchField => c.searchTerm
    case AreaField => c.area
    case CategoryField => c.category
    case ExperienceField => c.experience
  }

  /** The value a criterion takes when it does not filter. */
  function Neutral(f: Field): string {
    if f == SearchField then "" else All
  }

  /** Whether the "clear filters" link is shown: some criterion filters. */
  function IsActive(c: Criteria): (active: bool)
    ensures active <==> c != Initial
    ensures active <==> exists f: Field :: Get(c, f) != Neutral(f)
  {
    assert Get(c, SearchField) == c.searchTerm && Get(c, AreaField) == c.area;
    assert Get(c, CategoryField) == c.category && Get(c, ExperienceField) == c.experience;
    c.area != All || c.category != All || c.experience != All || c.searchTerm != ""
  }

  /** What the user can do to the criteria: type in the search box, pick a
      value in one of the three drop-downs, or press either of the two
      "clear filters" buttons (their handlers perform the same four
      assignments). */
  datatype Event =
    | EditSearch(term: string)
    | PickArea(area: string)
    | PickCategory(category: string)
    | PickExperience(experience: string)
    | ClearFilters

  /** The criterion an edit event sets, and the value it sets it to. */
  function Target(e: Event): Field
    requires !e.ClearFilters?
  {
    match e
    case EditSearch(_) => SearchField
    case PickArea(_) => AreaField
    case PickCategory(_) => CategoryField
    case PickExperience(_) => ExperienceField
  }

  function NewValue(e: Event): string
    requires !e.ClearFilters?
  {
    match e
    case EditSearch(t) => t
    case PickArea(a) => a
    case PickCategory(c) => c
    case PickExperience(x) => x
  }

  /** What either "clear filters" handler does: set the three drop-downs to
      "all" and empty the search box, in that order. */
  function Reset(c: Criteria): Criteria {
    c.(area := All).(category := All).(experience := All).(searchTerm := "")
  }

  /** The criteria after event `e`. An edit sets its one criterion and leaves
      the other three alone; clearing puts every criterion back to neutral. */
  function Step(c: Criteria, e: Event): (r: Criteria)
    ensures e.ClearFilters? ==> forall f :: Get(r, f) == Neutral(f)
    ensures e.ClearFilters? ==> !IsActive(r)
    ensures !e.ClearFilters? ==> Get(r, Target(e)) == NewValue(e)
    ensures !e.ClearFilters? ==> forall f :: f != Target(e) ==> Get(r, f) == Get(c, f)
  {
    match e
    case EditSearch(t) => c.(searchTerm := t)
    case PickArea(a) => c.(area := a)
    case PickCategory(x) => c.(category := x)
    case PickExperience(x) => c.(experience := x)
    case ClearFilters => Reset(c)
  }

  /** The four assignments of a reset give back the criteria the page
      starts with, whatever came before, so clearing twice is the same as
      clearing once. */
  lemma ClearRestoresInitial(c: Criteria)
    ensures Step(c, ClearFilters) == Initial
    ensures Step(Step(c, ClearFilters), ClearFilters) == Step(c, ClearFilters)
  {
    assert forall f :: Get(Step(c, ClearFilters), f) == Get(Initial, f);
  }

  /** An entry of a drop-down: the value it stores and the caption it shows. */
  datatype SelectOption = SelectOption(value: string, caption: string)

  /** The options of a drop-down: the "all" entry with its own caption,
      followed by one entry per listed value, captioned by the value itself. */
  function Options(allCaption: string, values: seq<string>): (opts: seq<SelectOption>)
    ensures |opts| == |values| + 1
    ensures opts[0] == SelectOption(All, allCaption)
    ensures forall i :: 0 <= i < |values| ==> opts[i + 1] == SelectOption(values[i], values[i])
  {
    [SelectOption(All, allCaption)] + seq(|values|, i requires 0 <= i < |values| => SelectOption(values[i], values[i]))
  }

  const AreaOptions: seq<SelectOption> := Options("전국", Locations)
  const CategoryOptions: seq<SelectOption> := Options("모든직종", Categories)
  const ExperienceOptions: seq<SelectOption> := Options("경력무관", Experiences)

  /** The values a drop-down can hold. */
  function Values(opts: seq<SelectOption>): (vs: seq<string>)
    ensures |vs| == |opts|
    ensures forall i :: 0 <= i < |opts| ==> vs[i] == opts[i].value
  {
    seq(|opts|, i requires 0 <= i < |opts| => opts[i].value)
  }

  /** The "all" value is distinct from every listed value, so every drop-down
      entry stores a different value. */
  lemma OptionValuesDistinct()
    ensures All !in Locations && All !in Categories && All !in Experiences
    ensures NoDuplicates(Values(AreaOptions))
    ensures NoDuplicates(Values(CategoryOptions))
    ensures NoDuplicates(Values(ExperienceOptions))
  {
    OptionListsDistinct();
    DistinctAfterAll(Locations);
    DistinctAfterAll(Categories);
    DistinctAfterAll(Experiences);
  }

  lemma DistinctAfterAll(values: seq<string>)
    requires All !in values && NoDuplicates(values)
    ensures forall cap :: NoDuplicates(Values(Options(cap, values)))
  {
    forall cap, i, j | 0 <= i < j < |values| + 1
      ensures Values(Options(cap, values))[i] != Values(Options(cap, values))[j]
    {
      if i > 0 {
        assert Values(Options(cap, values))[i] == values[i - 1];
      }
      assert Values(Options(cap, values))[j] == values[j - 1];
    }
  }

  /** The experience drop-down shows the caption "경력무관" twice: once on the
      "all" entry and once on the listed experience value of that name. The
      two entries store different values. */
  lemma ExperienceCaptionClash()
    ensures ExperienceOptions[0].caption == ExperienceOptions[5].caption == "경력무관"
    ensures ExperienceOptions[0].value == All
    ensures ExperienceOptions[5].value == AnyExperience.Label()
    ensures ExperienceOptions[0].value != ExperienceOptions[5].value
  {
    assert ExperienceOptions[5] == SelectOption(Experiences[4], Experiences[4]);
  }

  /** Criteria whose drop-down values are all offered by the drop-downs. */
  predicate Selectable(c: Criteria) {
    && c.area in Values(AreaOptions)
    && c.category in Values(CategoryOptions)
    && c.experience in Values(ExperienceOptions)
  }

  /** An event the page's controls can produce: the search box takes any text,
      a drop-down only one of its own values. */
  predicate FromControls(e: Event) {
    match e
    case EditSearch(_) => true
    case PickArea(a) => a in Values(AreaOptions)
    case PickCategory(x) => x in Values(CategoryOptions)
    case PickExperience(x) => x in Values(ExperienceOptions)
    case ClearFilters => true
  }

  /** A selectable drop-down value is either "all" or the label of exactly one
      enumeration value. */
  lemma SelectableValuesParse(c: Criteria)
    requires Selectable(c)
    ensures c.area == All || ParseArea(c.area).Some?
    ensures c.category == All || ParseCategory(c.category).Some?
    ensures c.experience == All || ParseExperience(c.experience).Some?
  {
    OptionListsMatchEnumerations();
    ValuesOfOptions("전국", Locations);
    ValuesOfOptions("모든직종", Categories);
    ValuesOfOptions("경력무관", Experiences);
  }

  lemma ValuesOfOptions(cap: string, values: seq<string>)
    ensures forall v :: v in Values(Options(cap, values)) <==> v == All || v in values
  {
    var vs := Values(Options(cap, values));
    forall v | v in values
      ensures v in vs
    {
      var i :| 0 <= i < |values| && values[i] == v;
      assert vs[i + 1] == v;
    }
    assert vs[0] == All;
  }

  /** The page starts in a selectable state and its controls keep it there. */
  lemma StepKeepsSelectable(c: Criteria, e: Event)
    requires Selectable(c) && FromControls(e)
    ensures Selectable(Step(c, e))
  {
    if e.ClearFilters? {
      ValuesOfOptions("전국", Locations);
      ValuesOfOptions("모든직종", Categories);
      ValuesOfOptions("경력무관", Experiences);
    }
  }

  lemma InitialSelectable()
    ensures Selectable(Initial)
    ensures !IsActive(Initial)
  {
    ValuesOfOptions("전국", Locations);
    ValuesOfOptions("모든직종", Categories);
    ValuesOfOptions("경력무관", Experiences);
  }
}
