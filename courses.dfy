/**
 * The course catalog page: a fixed list of four programs, a level filter and
 * a free-text search that together decide which programs are listed.
 */
module Courses {
  import opened Text
  import opened CatalogText
  import Seqs

  datatype Level = Beginner | Intermediate | Advanced

  /** The level drop-down: 'All' or one level. */
  datatype LevelFilter = All | Only(level: Level)

  datatype Course = Course(
    id: string,
    title: string,
    description: string,
    duration: string,
    level: Level,
    modules: seq<string>,
    price: string,
    icon: string)

  const BasicCoding := Course(
    "basic-coding",
    "Basic Medical Coding Training",
    "Foundation course covering " + "medical terminology, anatomy, " + "and introductory coding "
      + "guidelines. Perfect for " + "beginners.",
    "3 Months",
    Beginner,
    ["Medical Terminology", "Anatomy & Physiology", "Introduction to ICD-10", "Introduction to CPT",
     "Healthcare Compliance"],
    "Contact for Price",
    "fa-book-medical")

  const AdvanceCoding := Course(
    "advance-coding",
    "Advance Medical Coding Training",
    "Comprehensive training for " + "inpatient and outpatient " + "coding, including complex "
      + "scenarios, specialties, and " + "case studies.",
    "6 Months",
    Advanced,
    ["Advanced ICD-10-CM", "CPT Surgery Sections", "E/M Coding", "Compliance & Auditing", "Specialty Coding"],
    "Contact for Price",
    "fa-user-md")

  const CpcTraining := Course(
    "cpc-training",
    "CPC Training",
    "Targeted preparation for the " + "AAPC Certified Professional " + "Coder (CPC) exam with "
      + "intensive mock tests and " + "exam strategies.",
    "4 Months",
    Intermediate,
    ["Examination Guidelines", "Mock Exams", "Time Management", "Code Set Navigation", "Practice Questions"],
    "Contact for Price",
    "fa-certificate")

  const CrcTraining := Course(
    "crc-training",
    "CRC Training",
    "Specialized training for the " + "Certified Risk Adjustment " + "Coder (CRC) credential, "
      + "focusing on risk adjustment " + "models.",
    "3 Months",
    Advanced,
    ["Risk Adjustment Models", "Hierarchical Condition Categories (HCC)", "Documentation Improvement",
     "Predictive Modeling"],
    "Contact for Price",
    "fa-chart-line")

  /** The catalog, in display order (long texts are split across lines). */
  const Catalog: seq<Course> := [BasicCoding, AdvanceCoding, CpcTraining, CrcTraining]

  /** The level test: 'All' admits every course. */
  predicate MatchesFilter(c: Course, filter: LevelFilter)
  {
    filter == All || c.level == filter.level
  }

  /**
   * The search test: the lower-cased query occurs in the lower-cased title,
   * description or some module name.
   */
  predicate MatchesSearch(c: Course, query: string)
  {
    var q := Lower(query);
    || Contains(Lower(c.title), q)
    || Contains(Lower(c.description), q)
    || exists m :: m in c.modules && Contains(Lower(m), q)
  }

  /** Whether the page lists course `c` under the given filter and query. */
  predicate Shown(c: Course, filter: LevelFilter, query: string)
  {
    MatchesFilter(c, filter) && MatchesSearch(c, query)
  }

  /** The callback handed to `filter`. */
  function ShownBy(filter: LevelFilter, query: string): Course -> bool
  {
    c => Shown(c, filter, query)
  }

  /**
   * `filteredCourses`: the courses that pass both tests, in catalog order.
   * The page applies it to `Catalog`; it is stated here for any list.
   */
  function FilteredCourses(courses: seq<Course>, filter: LevelFilter, query: string): (r: seq<Course>)
    ensures Seqs.IsSubsequence(r, courses)
    ensures forall c :: c in r <==> c in courses && Shown(c, filter, query)
  {
    Seqs.Filter(courses, ShownBy(filter, query))
  }

  /** Applying the same filter and query to the result changes nothing. */
  lemma FilterTwice(courses: seq<Course>, filter: LevelFilter, query: string)
    ensures FilteredCourses(FilteredCourses(courses, filter, query), filter, query)
         == FilteredCourses(courses, filter, query)
  {
    Seqs.FilterIdempotent(courses, ShownBy(filter, query));
  }

  /** With 'All' and an empty query every course is listed. */
  lemma NoCriteriaShowsAll(courses: seq<Course>)
    ensures FilteredCourses(courses, All, "") == courses
  {
    forall c | c in courses ensures Shown(c, All, "") {
      ContainsEmpty(Lower(c.title));
    }
    Seqs.FilterKeepsAll(courses, ShownBy(All, ""));
  }

  /** The page's two pieces of state. */
  datatype CatalogView = CatalogView(filter: LevelFilter, searchQuery: string)

  const InitialView := CatalogView(All, "")

  /** The courses listed for a view. */
  function Listed(v: CatalogView): seq<Course>
  {
    FilteredCourses(Catalog, v.filter, v.searchQuery)
  }

  /** `clearFilters`: back to 'All' and an empty query, so the whole catalog shows. */
  function ClearFilters(v: CatalogView): (r: CatalogView)
    ensures r.filter == All && r.searchQuery == ""
    ensures Listed(r) == Catalog
  {
    NoCriteriaShowsAll(Catalog);
    InitialView
  }

  /** The search ignores case: two queries with the same lower-cased form list the same courses. */
  lemma SearchIgnoresCase(courses: seq<Course>, filter: LevelFilter, q1: string, q2: string)
    requires Lower(q1) == Lower(q2)
    ensures FilteredCourses(courses, filter, q1) == FilteredCourses(courses, filter, q2)
  {
    Seqs.FilterSame(courses, ShownBy(filter, q1), ShownBy(filter, q2));
  }

  /** A query and its lower-cased form list the same courses. */
  lemma SearchLowered(courses: seq<Course>, filter: LevelFilter, query: string)
    ensures FilteredCourses(courses, filter, query) == FilteredCourses(courses, filter, Lower(query))
  {
    LowerIdempotent(query);
    SearchIgnoresCase(courses, filter, query, Lower(query));
  }

  /** With an empty query the level test alone decides. */
  lemma EmptyQueryByLevel(courses: seq<Course>, filter: LevelFilter)
    ensures forall c :: c in FilteredCourses(courses, filter, "") <==> c in courses && MatchesFilter(c, filter)
  {
    forall c | c in courses ensures MatchesSearch(c, "") {
      ContainsEmpty(Lower(c.title));
    }
  }

  lemma BasicCodingIsBeginner()
    ensures Shown(BasicCoding, Only(Beginner), "")
  {
    ContainsEmpty(Lower(BasicCoding.title));
  }

  /** The 'Beginner' level with an empty query lists only the basic program. */
  lemma BeginnerOnly()
    ensures FilteredCourses(Catalog, Only(Beginner), "") == [BasicCoding]
    ensures BasicCoding.id == "basic-coding"
  {
    var p := ShownBy(Only(Beginner), "");
    BasicCodingIsBeginner();
    assert Catalog == [BasicCoding] + ([AdvanceCoding] + ([CpcTraining] + [CrcTraining]));
    Seqs.FilterCons(CrcTraining, [], p);
    Seqs.FilterCons(CpcTraining, [CrcTraining], p);
    Seqs.FilterCons(AdvanceCoding, [CpcTraining] + [CrcTraining], p);
    Seqs.FilterCons(BasicCoding, [AdvanceCoding] + ([CpcTraining] + [CrcTraining]), p);
  }

  lemma HccModuleLowered()
    ensures Lower("Hierarchical Condition Categories (HCC)")[35..38] == "hcc"
  {
    var m := "Hierarchical Condition Categories (HCC)";
    assert m[35] == 'H' && m[36] == 'C' && m[37] == 'C';
  }

  lemma HccInCrcTraining()
    ensures MatchesSearch(CrcTraining, "HCC")
  {
    var m := "Hierarchical Condition Categories (HCC)";
    HccModuleLowered();
    assert Lower("HCC") == "hcc";
    assert OccursAt(Lower(m), "hcc", 35);
    assert m in CrcTraining.modules;
  }

  /** A course none of whose texts holds two c's in a row is not found by "HCC". */
  lemma NoDoubleCNotFound(c: Course)
    requires NoDoubleC(c.title) && NoDoubleC(c.description)
    requires forall m | m in c.modules :: NoDoubleC(m)
    ensures !MatchesSearch(c, "HCC")
  {
    assert Lower("HCC") == "hcc";
    NoDoubleCNoHcc(c.title);
    NoDoubleCNoHcc(c.description);
    forall m | m in c.modules ensures !Contains(Lower(m), "hcc") {
      NoDoubleCNoHcc(m);
    }
  }

  /**
   * The basic, advanced and CPC programs: no title, description or module of
   * theirs holds two c's in a row, so searching "HCC" does not find them.
   */
  lemma BasicDescriptionClean()
    ensures NoDoubleC(BasicCoding.description)
  {
    BasicDescription1(); BasicDescription2(); BasicDescription3(); BasicDescription4(); BasicDescription5();
    NoDoubleCPieces(
      "Foundation course covering ",
      "medical terminology, anatomy, ",
      "and introductory coding ",
      "guidelines. Perfect for ",
      "beginners.");
  }

  lemma BasicModulesClean()
    ensures forall m | m in BasicCoding.modules :: NoDoubleC(m)
  {
    BasicModule1(); BasicModule2(); BasicModule3(); BasicModule4(); BasicModule5();
  }

  lemma BasicNoHcc()
    ensures !MatchesSearch(BasicCoding, "HCC")
  {
    BasicTitle();
    BasicDescriptionClean();
    BasicModulesClean();
    NoDoubleCNotFound(BasicCoding);
  }

  lemma AdvanceDescriptionClean()
    ensures NoDoubleC(AdvanceCoding.description)
  {
    AdvanceDescription1(); AdvanceDescription2(); AdvanceDescription3(); AdvanceDescription4(); AdvanceDescription5();
    NoDoubleCPieces(
      "Comprehensive training for ",
      "inpatient and outpatient ",
      "coding, including complex ",
      "scenarios, specialties, and ",
      "case studies.");
  }

  lemma AdvanceModulesClean()
    ensures forall m | m in AdvanceCoding.modules :: NoDoubleC(m)
  {
    AdvanceModule1(); AdvanceModule2(); AdvanceModule3(); AdvanceModule4(); AdvanceModule5();
  }

  lemma AdvanceNoHcc()
    ensures !MatchesSearch(AdvanceCoding, "HCC")
  {
    AdvanceTitle();
    AdvanceDescriptionClean();
    AdvanceModulesClean();
    NoDoubleCNotFound(AdvanceCoding);
  }

  lemma CpcDescriptionClean()
    ensures NoDoubleC(CpcTraining.description)
  {
    CpcDescription1(); CpcDescription2(); CpcDescription3(); CpcDescription4(); CpcDescription5();
    NoDoubleCPieces(
      "Targeted preparation for the ",
      "AAPC Certified Professional ",
      "Coder (CPC) exam with ",
      "intensive mock tests and ",
      "exam strategies.");
  }

  lemma CpcModulesClean()
    ensures forall m | m in CpcTraining.modules :: NoDoubleC(m)
  {
    CpcModule1(); CpcModule2(); CpcModule3(); CpcModule4(); CpcModule5();
  }

  lemma CpcNoHcc()
    ensures !MatchesSearch(CpcTraining, "HCC")
  {
    CpcTitle();
    CpcDescriptionClean();
    CpcModulesClean();
    NoDoubleCNotFound(CpcTraining);
  }

  /**
   * Searching "HCC" over every level lists the CRC program, through its module
   * on hierarchical condition categories, and nothing else: no text of the other
   * three programs holds two c's in a row.
   */
  lemma SearchHccListsCrc()
    ensures FilteredCourses(Catalog, All, "HCC") == [CrcTraining]
  {
    var p := ShownBy(All, "HCC");
    HccInCrcTraining();
    BasicNoHcc();
    AdvanceNoHcc();
    CpcNoHcc();
    assert Catalog == [BasicCoding] + ([AdvanceCoding] + ([CpcTraining] + [CrcTraining]));
    Seqs.FilterCons(CrcTraining, [], p);
    Seqs.FilterCons(CpcTraining, [CrcTraining], p);
    Seqs.FilterCons(AdvanceCoding, [CpcTraining] + [CrcTraining], p);
    Seqs.FilterCons(BasicCoding, [AdvanceCoding] + ([CpcTraining] + [CrcTraining]), p);
  }
}
