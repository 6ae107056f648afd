/** The data model of the job board: the closed enumerations a posting is
    classified by, the posting record itself and the shape of an AI
    analysis. Every enumeration value carries the Korean label that the
    application stores and compares. */
module Types {
  import opened Wrappers

  /** Kind of institution offering the job. */
  datatype InstitutionType = Kindergarten | Daycare | OtherInstitution {
    function Label(): string {
      match this
      case Kindergarten => "유치원"
      case Daycare => "어린이집"
      case OtherInstitution => "기타"
    }
  }

  /** Job category: the nine kinds of teaching post. */
  datatype JobCategory =
    | LeadTeacher
    | ChildcareTeacher
    | ExtendedDayTeacher
    | AssistantTeacher
    | ArtTeacher
    | MusicTeacher
    | SportsTeacher
    | HomeStudyTeacher
    | SpecialtyTeacher
  {
    function Label(): string {
      match this
      case LeadTeacher => "정교사"
      case ChildcareTeacher => "보육교사"
      case ExtendedDayTeacher => "연장반교사"
      case AssistantTeacher => "보조교사"
      case ArtTeacher => "미술교사"
      case MusicTeacher => "음악교사"
      case SportsTeacher => "체육교사"
      case HomeStudyTeacher => "학습지교사"
      case SpecialtyTeacher => "특기교사"
    }
  }

  /** Experience a posting asks for: five bands, the last meaning that
      experience does not matter. */
  datatype ExperienceLevel = Newcomer | OneToThreeYears | ThreeToFiveYears | FiveYearsOrMore | AnyExperience {
    function Label(): string {
      match this
      case Newcomer => "신입"
      case OneToThreeYears => "1-3년"
      case ThreeToFiveYears => "3-5년"
      case FiveYearsOrMore => "5년 이상"
      case AnyExperience => "경력무관"
    }
  }

  /** Region a posting is filed under: seven cities or provinces and "other". */
  datatype LocationArea = Seoul | Gyeonggi | Incheon | Busan | Daegu | Daejeon | Gwangju | OtherArea {
    function Label(): string {
      match this
      case Seoul => "서울"
      case Gyeonggi => "경기"
      case Incheon => "인천"
      case Busan => "부산"
      case Daegu => "대구"
      case Daejeon => "대전"
      case Gwangju => "광주"
      case OtherArea => "기타"
    }
  }

  /** A job posting. Only `institutionType`, `category`, `area` and
      `experience` are constrained; every other field is free text, and
      `deadline` and `createdAt` are never interpreted as dates. The
      application names the institution-type field `type`, a keyword in
      Dafny, hence `institutionType` here. */
  datatype JobPost = JobPost(
    id: string,
    title: string,
    institutionName: string,
    institutionType: InstitutionType,
    category: JobCategory,
    location: string,
    area: LocationArea,
    salary: string,
    experience: ExperienceLevel,
    deadline: string,
    content: string,
    tags: seq<string>,
    createdAt: string
  )

  /** The structured analysis of a posting: a one-line summary and two lists
      of remarks. The type puts no bound on the lengths of the lists. */
  datatype AISummaryResponse = AISummaryResponse(summary: string, pros: seq<string>, tips: seq<string>)

  // Every enumeration value, in declaration order.

  const AllInstitutionTypes: seq<InstitutionType> := [Kindergarten, Daycare, OtherInstitution]

  const AllCategories: seq<JobCategory> := [
    LeadTeacher, ChildcareTeacher, ExtendedDayTeacher, AssistantTeacher, ArtTeacher,
    MusicTeacher, SportsTeacher, HomeStudyTeacher, SpecialtyTeacher
  ]

  const AllExperienceLevels: seq<ExperienceLevel> := [
    Newcomer, OneToThreeYears, ThreeToFiveYears, FiveYearsOrMore, AnyExperience
  ]

  const AllAreas: seq<LocationArea> := [Seoul, Gyeonggi, Incheon, Busan, Daegu, Daejeon, Gwangju, OtherArea]

  // Reading a stored label back as an enumeration value.

  function ParseInstitutionType(s: string): (r: Option<InstitutionType>)
    ensures r.Some? ==> r.value.Label() == s
    ensures r.None? <==> forall t: InstitutionType :: t.Label() != s
  {
    if s == "유치원" then Some(Kindergarten)
    else if s == "어린이집" then Some(Daycare)
    else if s == "기타" then Some(OtherInstitution)
    else None
  }

  function ParseCategory(s: string): (r: Option<JobCategory>)
    ensures r.Some? ==> r.value.Label() == s
    ensures r.None? <==> forall c: JobCategory :: c.Label() != s
  {
    if s == "정교사" then Some(LeadTeacher)
    else if s == "보육교사" then Some(ChildcareTeacher)
    else if s == "연장반교사" then Some(ExtendedDayTeacher)
    else if s == "보조교사" then Some(AssistantTeacher)
    else if s == "미술교사" then Some(ArtTeacher)
    else if s == "음악교사" then Some(MusicTeacher)
    else if s == "체육교사" then Some(SportsTeacher)
    else if s == "학습지교사" then Some(HomeStudyTeacher)
    else if s == "특기교사" then Some(SpecialtyTeacher)
    else None
  }

  function ParseExperience(s: string): (r: Option<ExperienceLevel>)
    ensures r.Some? ==> r.value.Label() == s
    ensures r.None? <==> forall e: ExperienceLevel :: e.Label() != s
  {
    if s == "신입" then Some(Newcomer)
    else if s == "1-3년" then Some(OneToThreeYears)
    else if s == "3-5년" then Some(ThreeToFiveYears)
    else if s == "5년 이상" then Some(FiveYearsOrMore)
    else if s == "경력무관" then Some(AnyExperience)
    else None
  }

  function ParseArea(s: string): (r: Option<LocationArea>)
    ensures r.Some? ==> r.value.Label() == s
    ensures r.None? <==> forall a: LocationArea :: a.Label() != s
  {
    if s == "서울" then Some(Seoul)
    else if s == "경기" then Some(Gyeonggi)
    else if s == "인천" then Some(Incheon)
    else if s == "부산" then Some(Busan)
    else if s == "대구" then Some(Daegu)
    else if s == "대전" then Some(Daejeon)
    else if s == "광주" then Some(Gwangju)
    else if s == "기타" then Some(OtherArea)
    else None
  }

  // Each enumeration is closed: the list above holds every value exactly
  // once, and the labels tell the values apart.

  lemma InstitutionTypeClosed()
    ensures |AllInstitutionTypes| == 3
    ensures forall t: InstitutionType :: t in AllInstitutionTypes
    ensures forall t: InstitutionType :: ParseInstitutionType(t.Label()) == Some(t)
    ensures forall i, j :: 0 <= i < j < |AllInstitutionTypes| ==> AllInstitutionTypes[i].Label() != AllInstitutionTypes[j].Label()
  {
    forall t: InstitutionType
      ensures t in AllInstitutionTypes
    {
      match t
      case Kindergarten => assert AllInstitutionTypes[0] == t;
      case Daycare => assert AllInstitutionTypes[1] == t;
      case OtherInstitution => assert AllInstitutionTypes[2] == t;
    }
  }

  lemma CategoryClosed()
    ensures |AllCategories| == 9
    ensures forall c: JobCategory :: c in AllCategories
    ensures forall c: JobCategory :: ParseCategory(c.Label()) == Some(c)
    ensures forall i, j :: 0 <= i < j < |AllCategories| ==> AllCategories[i].Label() != AllCategories[j].Label()
  {
    forall c: JobCategory
      ensures c in AllCategories
    {
      match c
      case LeadTeacher => assert AllCategories[0] == c;
      case ChildcareTeacher => assert AllCategories[1] == c;
      case ExtendedDayTeacher => assert AllCategories[2] == c;
      case AssistantTeacher => assert AllCategories[3] == c;
      case ArtTeacher => assert AllCategories[4] == c;
      case MusicTeacher => assert AllCategories[5] == c;
      case SportsTeacher => assert AllCategories[6] == c;
      case HomeStudyTeacher => assert AllCategories[7] == c;
      case SpecialtyTeacher => assert AllCategories[8] == c;
    }
  }

  lemma ExperienceClosed()
    ensures |AllExperienceLevels| == 5
    ensures forall e: ExperienceLevel :: e in AllExperienceLevels
    ensures forall e: ExperienceLevel :: ParseExperience(e.Label()) == Some(e)
    ensures forall i, j :: 0 <= i < j < |AllExperienceLevels| ==> AllExperienceLevels[i].Label() != AllExperienceLevels[j].Label()
  {
    forall e: ExperienceLevel
      ensures e in AllExperienceLevels
    {
      match e
      case Newcomer => assert AllExperienceLevels[0] == e;
      case OneToThreeYears => assert AllExperienceLevels[1] == e;
      case ThreeToFiveYears => assert AllExperienceLevels[2] == e;
      case FiveYearsOrMore => assert AllExperienceLevels[3] == e;
      case AnyExperience => assert AllExperienceLevels[4] == e;
    }
  }

  lemma AreaClosed()
    ensures |AllAreas| == 8
    ensures forall a: LocationArea :: a in AllAreas
    ensures forall a: LocationArea :: ParseArea(a.Label()) == Some(a)
    ensures forall i, j :: 0 <= i < j < |AllAreas| ==> AllAreas[i].Label() != AllAreas[j].Label()
  {
    forall a: LocationArea
      ensures a in AllAreas
    {
      match a
      case Seoul => assert AllAreas[0] == a;
      case Gyeonggi => assert AllAreas[1] == a;
      case Incheon => assert AllAreas[2] == a;
      case Busan => assert AllAreas[3] == a;
      case Daegu => assert AllAreas[4] == a;
      case Daejeon => assert AllAreas[5] == a;
      case Gwangju => assert AllAreas[6] == a;
      case OtherArea => assert AllAreas[7] == a;
    }
  }

  /** Equal labels mean equal values, for each of the enumerations a posting
      is filtered by. */
  lemma LabelsInjective()
    ensures forall c: JobCategory, d: JobCategory :: c.Label() == d.Label() ==> c == d
    ensures forall e: ExperienceLevel, f: ExperienceLevel :: e.Label() == f.Label() ==> e == f
    ensures forall a: LocationArea, b: LocationArea :: a.Label() == b.Label() ==> a == b
  {
    CategoryClosed();
    ExperienceClosed();
    AreaClosed();
  }
}
