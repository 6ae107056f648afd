/** The fixed data the application starts from: the option lists shown in the
    three filter drop-downs and the five sample postings. */
module Constants {
  import opened Wrappers
  import opened Seqs
  import opened Types

  /** Drop-down values for the region filter. */
  const Locations: seq<string> := ["서울", "경기", "인천", "부산", "대구", "대전", "광주", "기타"]

  /** Drop-down values for the job-category filter. */
  const Categories: seq<string> := [
    "정교사", "보육교사", "연장반교사", "보조교사", "미술교사", "음악교사", "체육교사", "학습지교사", "특기교사"
  ]

  /** Drop-down values for the experience filter. */
  const Experiences: seq<string> := ["신입", "1-3년", "3-5년", "5년 이상", "경력무관"]

  /** Each option list names exactly the labels of its enumeration, in
      declaration order: a listed string always reads back as a value, and an
      unlisted one never does. */
  lemma OptionListsMatchEnumerations()
    ensures |Locations| == |AllAreas| && forall i :: 0 <= i < |Locations| ==> Locations[i] == AllAreas[i].Label()
    ensures |Categories| == |AllCategories| && forall i :: 0 <= i < |Categories| ==> Categories[i] == AllCategories[i].Label()
    ensures |Experiences| == |AllExperienceLevels| && forall i :: 0 <= i < |Experiences| ==> Experiences[i] == AllExperienceLevels[i].Label()
    ensures forall s :: s in Locations <==> ParseArea(s).Some?
    ensures forall s :: s in Categories <==> ParseCategory(s).Some?
    ensures forall s :: s in Experiences <==> ParseExperience(s).Some?
  {
  }

  /** No option list offers the same value twice. */
  lemma OptionListsDistinct()
    ensures NoDuplicates(Locations)
    ensures NoDuplicates(Categories)
    ensures NoDuplicates(Experiences)
  {
  }

  // The five sample postings.

  const Post1: JobPost := JobPost(
    "1",
    "햇살유치원 정교사 및 부담임 교사 채용 공고",
    "햇살유치원",
    Kindergarten,
    LeadTeacher,
    "서울시 서초구",
    Seoul,
    "연봉 3,200만원 이상",
    OneToThreeYears,
    "2024-05-30",
    "저희 햇살유치원에서는 아이들을 사랑하는 마음으로 함께 성장해 나갈 정교사를 모집합니다. 유아교육 전공자 및 정교사 2급 자격증 소지자를 대상으로 하며, 다양한 연수 기회를 제공합니다.",
    ["정규직", "교통비지원", "연차제도"],
    "2024-05-01"
  )

  const Post2: JobPost := JobPost(
    "2",
    "꿈나무 어린이집 영아반 보조교사 급구",
    "꿈나무 어린이집",
    Daycare,
    AssistantTeacher,
    "경기도 성남시 분당구",
    Gyeonggi,
    "시급 11,000원",
    Newcomer,
    "채용시까지",
    "영아반 아이들을 따뜻하게 돌봐주실 보조교사 선생님을 모십니다. 오후 파트타임 근무이며, 보육교사 자격증 필수입니다.",
    ["단기알바", "파트타임", "초보환영"],
    "2024-05-03"
  )

  const Post3: JobPost := JobPost(
    "3",
    "아트팡 미술학원 창의미술 전임교사 채용",
    "아트팡 미술센터",
    OtherInstitution,
    ArtTeacher,
    "인천시 연수구",
    Incheon,
    "월 280만원",
    ThreeToFiveYears,
    "2024-06-10",
    "아이들의 창의력을 함께 키워나갈 열정적인 미술 선생님을 모십니다. 아동미술 경력자를 우대합니다.",
    ["미술교육", "인센티브", "쾌적한환경"],
    "2024-05-05"
  )

  const Post4: JobPost := JobPost(
    "4",
    "서울시립 푸른숲 어린이집 연장반 교사 채용",
    "푸른숲 어린이집",
    Daycare,
    ExtendedDayTeacher,
    "서울시 강남구",
    Seoul,
    "월 250만원선",
    AnyExperience,
    "2024-06-15",
    "국공립 어린이집에서 함께하실 열정적인 선생님을 기다립니다. 연장반 전담 교사로서 안정적인 근무 환경을 보장합니다.",
    ["국공립", "복리후생우수", "4대보험"],
    "2024-05-02"
  )

  const Post5: JobPost := JobPost(
    "5",
    "방문 학습지 교사 (한글/수학) 파트타임 모집",
    "아이똑똑 교육",
    OtherInstitution,
    HomeStudyTeacher,
    "부산시 해운대구",
    Busan,
    "건당 수수료제",
    Newcomer,
    "상시모집",
    "가정 방문을 통해 아이들의 기초 학습을 도와주실 선생님을 모십니다. 유아 교육에 열정이 있는 분이라면 누구나 환영합니다.",
    ["유연한근무", "자차필수", "인센티브"],
    "2024-05-06"
  )

  /** The sample postings, in the order the page lists them. */
  const MockPosts: seq<JobPost> := [Post1, Post2, Post3, Post4, Post5]

  /** The ids of `posts`, in order. */
  function Ids(posts: seq<JobPost>): (ids: seq<string>)
    ensures |ids| == |posts|
    ensures forall k :: 0 <= k < |posts| ==> ids[k] == posts[k].id
  {
    if posts == [] then [] else [posts[0].id] + Ids(posts[1..])
  }

  /** The sample data holds five postings with the distinct ids "1" to "5". */
  lemma MockPostIds()
    ensures Ids(MockPosts) == ["1", "2", "3", "4", "5"]
    ensures NoDuplicates(Ids(MockPosts))
  {
  }
}
