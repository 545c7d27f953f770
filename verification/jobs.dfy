/** The job-description processor: each raw job record is enriched with an
    experience level inferred from its title, a skill category chosen by a fixed
    rule chain, an education requirement, remote and relocation flags, a skills
    hierarchy and a 1-based id. */
module JobProcessing {
  import opened Optional
  import opened AsciiStrings

  // ---------------------------------------------------------------------------
  // Enumerations, with the strings the output records carry.
  // ---------------------------------------------------------------------------

  datatype Level = Junior | Mid | Senior {
    function Name(): string {
      match this
      case Junior => "junior"
      case Mid => "mid"
      case Senior => "senior"
    }

    /** Position on the seniority scale. */
    function Rank(): nat {
      match this
      case Junior => 0
      case Mid => 1
      case Senior => 2
    }
  }

  datatype Category = Python | Java | JavaScript | AiMl | Data | DevOps | Security | Other {
    function Name(): string {
      match this
      case Python => "python"
      case Java => "java"
      case JavaScript => "javascript"
      case AiMl => "ai_ml"
      case Data => "data"
      case DevOps => "devops"
      case Security => "security"
      case Other => "other"
    }
  }

  datatype Education = Bachelor | Master {
    function Name(): string {
      match this
      case Bachelor => "bachelor"
      case Master => "master"
    }
  }

  /** The strings written to the output tell the values apart: no two levels,
      categories or education requirements share a name. */
  lemma NamesDistinct()
    ensures forall a: Level, b: Level :: a.Name() == b.Name() ==> a == b
    ensures forall a: Category, b: Category :: a.Name() == b.Name() ==> a == b
    ensures forall a: Education, b: Education :: a.Name() == b.Name() ==> a == b
  {
  }

  // ---------------------------------------------------------------------------
  // Experience level.
  // ---------------------------------------------------------------------------

  const SeniorKeywords: seq<string> := ["senior", "sr", "lead", "principal"]
  const JuniorKeywords: seq<string> := ["junior", "jr", "entry"]

  /** `word` occurs anywhere in the lower-cased `text`. */
  ghost predicate MentionsWord(text: string, word: string) {
    exists i :: OccursAt(Lower(text), word, i)
  }

  /** Some word of `words` occurs anywhere in the lower-cased `text`. */
  ghost predicate Mentions(text: string, words: seq<string>) {
    exists k :: 0 <= k < |words| && MentionsWord(text, words[k])
  }

  /** The level a title implies. Senior keywords win over junior ones; a title
      with neither, the empty title included, is mid level. Keywords match as
      substrings, not as whole words. */
  function ExperienceLevel(title: string): (r: Level)
    ensures r == Senior <==> Mentions(title, SeniorKeywords)
    ensures r == Junior <==> !Mentions(title, SeniorKeywords) && Mentions(title, JuniorKeywords)
    ensures r == Mid <==> !Mentions(title, SeniorKeywords) && !Mentions(title, JuniorKeywords)
  {
    var t := Lower(title);
    if AnyContained(SeniorKeywords, t) then Senior
    else if AnyContained(JuniorKeywords, t) then Junior
    else Mid
  }

  // ---------------------------------------------------------------------------
  // Skill category: the first rule, in priority order, one of whose keywords
  // equals a lower-cased requirement or nice-to-have entry.
  // ---------------------------------------------------------------------------

  const CategoryRules: seq<(Category, seq<string>)> := [
    (Python, ["python", "django", "flask", "fastapi"]),
    (Java, ["java", "spring", "kotlin"]),
    (JavaScript, ["javascript", "node.js", "react", "angular"]),
    (AiMl, ["machine learning", "ml", "tensorflow", "pytorch", "ai"]),
    (Data, ["data", "sql", "etl", "spark", "hadoop"]),
    (DevOps, ["aws", "azure", "gcp", "cloud", "devops", "kubernetes"]),
    (Security, ["security", "siem", "penetration", "cybersecurity"])
  ]

  function LowerAll(xs: seq<string>): (r: seq<string>)
    ensures |r| == |xs|
    ensures forall i :: 0 <= i < |xs| ==> r[i] == Lower(xs[i])
  {
    seq(|xs|, i requires 0 <= i < |xs| => Lower(xs[i]))
  }

  /** Lower-casing a list of lower-case strings changes nothing. */
  lemma LowerAllOfLowercase(xs: seq<string>)
    requires AllLowercase(xs)
    ensures LowerAll(xs) == xs
  {
  }

  /** Some keyword is, exactly, one of the skills. */
  predicate RuleFires(keywords: seq<string>, skills: seq<string>) {
    exists k :: 0 <= k < |keywords| && keywords[k] in skills
  }

  /** Rule `i` fires and no earlier rule does. */
  ghost predicate FirstFiring(rules: seq<(Category, seq<string>)>, skills: seq<string>, i: int) {
    && 0 <= i < |rules|
    && RuleFires(rules[i].1, skills)
    && forall j :: 0 <= j < i ==> !RuleFires(rules[j].1, skills)
  }

  ghost predicate NoneFires(rules: seq<(Category, seq<string>)>, skills: seq<string>) {
    forall i :: 0 <= i < |rules| ==> !RuleFires(rules[i].1, skills)
  }

  /** The category of the first rule that fires, `Other` when none does. */
  function FirstMatch(rules: seq<(Category, seq<string>)>, skills: seq<string>): (r: Category)
    ensures NoneFires(rules, skills) ==> r == Other
    ensures !NoneFires(rules, skills) ==> exists i :: FirstFiring(rules, skills, i) && r == rules[i].0
  {
    if rules == [] then Other
    else if RuleFires(rules[0].1, skills) then
      assert FirstFiring(rules, skills, 0);
      rules[0].0
    else
      var r := FirstMatch(rules[1..], skills);
      assert forall i :: FirstFiring(rules[1..], skills, i) ==> FirstFiring(rules, skills, i + 1);
      assert NoneFires(rules[1..], skills) ==> NoneFires(rules, skills);
      r
  }

  /** The category of a job from its requirements and nice-to-have lists: the
      first rule of `CategoryRules` that fires on the lower-cased entries. */
  function Categorize(requirements: seq<string>, niceToHave: seq<string>): (r: Category)
    ensures r == Other <==> NoneFires(CategoryRules, LowerAll(requirements + niceToHave))
    ensures r != Other ==>
      exists i :: FirstFiring(CategoryRules, LowerAll(requirements + niceToHave), i) && r == CategoryRules[i].0
  {
    CategoryRulesOrder();
    FirstMatch(CategoryRules, LowerAll(requirements + niceToHave))
  }

  /** The rule chain tries python, java, javascript, ai_ml, data, devops and
      security, in that order, each once; none of them yields `Other`, so `Other`
      means that no rule fired. */
  lemma CategoryRulesOrder()
    ensures |CategoryRules| == 7
    ensures forall i :: 0 <= i < |CategoryRules| ==> CategoryRules[i].0 != Other
    ensures forall i, j :: 0 <= i < j < |CategoryRules| ==> CategoryRules[i].0 != CategoryRules[j].0
    ensures CategoryRules[0].0 == Python && CategoryRules[1].0 == Java
    ensures CategoryRules[2].0 == JavaScript && CategoryRules[3].0 == AiMl
    ensures CategoryRules[4].0 == Data && CategoryRules[5].0 == DevOps
    ensures CategoryRules[6].0 == Security
  {
  }

  // ---------------------------------------------------------------------------
  // Education, remote work, relocation.
  // ---------------------------------------------------------------------------

  /** A master's degree for senior AI/ML and data roles, a bachelor's otherwise. */
  function EducationRequired(category: Category, level: Level): (r: Education)
    ensures r == Master <==> (category == AiMl || category == Data) && level == Senior
  {
    if (category == AiMl || category == Data) && level == Senior then Master
    else if level == Junior then Bachelor
    else Bachelor
  }

  const RemoteKeywords: seq<string> := ["remote", "hybrid"]

  /** Remote work is offered when the location mentions "remote" or "hybrid". */
  function RemoteWork(location: string): (r: bool)
    ensures r <==> Mentions(location, RemoteKeywords)
  {
    AnyContained(RemoteKeywords, Lower(location))
  }

  /** Relocation is supported for senior roles, and for any role whose location
      does not mention "remote". */
  function RelocationSupport(level: Level, location: string): (r: bool)
    ensures r <==> level == Senior || !MentionsWord(location, "remote")
  {
    var locationLower := Lower(location);
    LowerIdempotent(location);
    level == Senior || !Contains(Lower(locationLower), "remote")
  }

  // ---------------------------------------------------------------------------
  // Skills hierarchy.
  // ---------------------------------------------------------------------------

  /** The fixed leading part of a category's skills hierarchy. */
  function BaseHierarchy(category: Category): (h: seq<string>)
    ensures category == Other <==> h == []
    ensures |h| <= 4
  {
    match category
    case Python => ["backend", "python", "api", "database"]
    case Java => ["backend", "java", "spring", "microservices"]
    case JavaScript => ["frontend", "javascript", "react", "node.js"]
    case AiMl => ["ai", "machine learning", "python", "data science"]
    case Data => ["data", "analytics", "sql", "etl"]
    case DevOps => ["devops", "cloud", "automation", "infrastructure"]
    case Security => ["security", "cybersecurity", "network", "compliance"]
    case Other => []
  }

  predicate NoDuplicates(xs: seq<string>) {
    forall i, j :: 0 <= i < j < |xs| ==> xs[i] != xs[j]
  }

  /** Python's `xs[:n]`. */
  function Take(xs: seq<string>, n: nat): (r: seq<string>)
    ensures |r| == if |xs| <= n then |xs| else n
    ensures r == xs[..|r|]
  {
    if |xs| <= n then xs else xs[..n]
  }

  /** Every entry of `r` past the first `n` is the lower-cased form of one of
      the skills. */
  ghost predicate AddedFromSkills(r: seq<string>, n: nat, skills: seq<string>) {
    forall p :: n <= p < |r| ==> exists k :: 0 <= k < |skills| && Lower(skills[k]) == r[p]
  }

  /** The entries of `r` past the first `n` follow the order of the skills that
      introduce them: when entry `q` comes after entry `p`, every skill that
      lowers to entry `q` comes after some skill that lowers to entry `p`. */
  ghost predicate AddedInSkillOrder(r: seq<string>, n: nat, skills: seq<string>) {
    forall p, q, kq :: n <= p < q < |r| && 0 <= kq < |skills| && Lower(skills[kq]) == r[q] ==>
      exists kp :: 0 <= kp < kq && Lower(skills[kp]) == r[p]
  }

  /** Appends the lower-cased form of each skill, in order, unless a
      case-insensitively equal entry is already present. The list it starts from
      is kept as a prefix, and at most one entry is added per skill. */
  function AppendNew(h: seq<string>, skills: seq<string>): (r: seq<string>)
    ensures |h| <= |r| <= |h| + |skills|
    ensures r[..|h|] == h
    decreases |skills|
  {
    if skills == [] then h
    else
      var s := Lower(skills[0]);
      var h' := if s in LowerAll(h) then h else h + [s];
      var r := AppendNew(h', skills[1..]);
      assert r[..|h|] == r[..|h'|][..|h|];
      r
  }

  /** Started from a lower-case list without repetitions, `AppendNew` yields one. */
  lemma {:induction false} AppendNewClean(h: seq<string>, skills: seq<string>)
    requires AllLowercase(h) && NoDuplicates(h)
    ensures AllLowercase(AppendNew(h, skills)) && NoDuplicates(AppendNew(h, skills))
    decreases |skills|
  {
    if skills != [] {
      var s := Lower(skills[0]);
      LowerAllOfLowercase(h);
      var h' := if s in h then h else h + [s];
      AppendNewClean(h', skills[1..]);
    }
  }

  /** Every entry `AppendNew` adds is the lower-cased form of one of the skills. */
  lemma {:induction false} AppendNewSound(h: seq<string>, skills: seq<string>)
    ensures AddedFromSkills(AppendNew(h, skills), |h|, skills)
    decreases |skills|
  {
    if skills != [] {
      var s := Lower(skills[0]);
      var h' := if s in LowerAll(h) then h else h + [s];
      AppendNewSound(h', skills[1..]);
      var r := AppendNew(h', skills[1..]);
      forall p | |h| <= p < |r|
        ensures exists k :: 0 <= k < |skills| && Lower(skills[k]) == r[p]
      {
        if p < |h'| {
          assert r[p] == h'[p] == s;
          assert Lower(skills[0]) == r[p];
        } else {
          var k :| 0 <= k < |skills[1..]| && Lower(skills[1..][k]) == r[p];
          assert Lower(skills[k + 1]) == r[p];
        }
      }
    }
  }

  /** Started from a lower-case list, `AppendNew` ends with every skill present
      in lower-case form. */
  lemma {:induction false} AppendNewComplete(h: seq<string>, skills: seq<string>)
    requires AllLowercase(h)
    ensures forall k :: 0 <= k < |skills| ==> Lower(skills[k]) in AppendNew(h, skills)
    decreases |skills|
  {
    if skills != [] {
      var s := Lower(skills[0]);
      LowerAllOfLowercase(h);
      var h' := if s in h then h else h + [s];
      assert AllLowercase(h');
      AppendNewComplete(h', skills[1..]);
      var r := AppendNew(h', skills[1..]);
      assert s in r by {
        assert s in h';
        assert r[..|h'|] == h';
      }
      forall k | 1 <= k < |skills|
        ensures Lower(skills[k]) in r
      {
        assert skills[k] == skills[1..][k - 1];
      }
    }
  }

  /** One step of `AppendNew`: the first skill either sat in the list already or
      was appended at position `n`, and the rest were added in order after `n'`. */
  lemma AddedInSkillOrderStep(r: seq<string>, n: nat, n': nat, j: nat, skills: seq<string>)
    requires |skills| > 0 && NoDuplicates(r)
    requires n <= n' <= n + 1 && j < n' <= |r| && r[j] == Lower(skills[0])
    requires n' == n + 1 ==> j == n
    requires AddedInSkillOrder(r, n', skills[1..])
    ensures AddedInSkillOrder(r, n, skills)
  {
  }

  /** `AppendNew` adds entries in the order of the skills that introduce them. */
  lemma {:induction false} AppendNewOrdered(h: seq<string>, skills: seq<string>)
    requires AllLowercase(h) && NoDuplicates(h)
    ensures AddedInSkillOrder(AppendNew(h, skills), |h|, skills)
    decreases |skills|
  {
    if skills != [] {
      var s := Lower(skills[0]);
      LowerAllOfLowercase(h);
      var h' := if s in h then h else h + [s];
      var j :| 0 <= j < |h'| && h'[j] == s && (s !in h ==> j == |h|);
      AppendNewOrdered(h', skills[1..]);
      AppendNewClean(h, skills);
      var r := AppendNew(h', skills[1..]);
      assert r[j] == s by {
        assert r[..|h'|][j] == h'[j];
      }
      AddedInSkillOrderStep(r, |h|, |h'|, j, skills);
    }
  }

  /** The skills hierarchy: the category's base list followed by the lower-cased
      first three requirements that are not already in it. */
  function SkillsHierarchy(category: Category, requirements: seq<string>): (h: seq<string>)
    ensures var base, top := BaseHierarchy(category), Take(requirements, 3);
      && |base| <= |h| <= |base| + |top|
      && h[..|base|] == base
      && AllLowercase(h)
      && NoDuplicates(h)
      && AddedFromSkills(h, |base|, top)
      && (forall k :: 0 <= k < |top| ==> Lower(top[k]) in h)
      && AddedInSkillOrder(h, |base|, top)
  {
    var base := BaseHierarchy(category);
    BaseHierarchyWellFormed(category);
    AppendNewClean(base, Take(requirements, 3));
    AppendNewSound(base, Take(requirements, 3));
    AppendNewComplete(base, Take(requirements, 3));
    AppendNewOrdered(base, Take(requirements, 3));
    AppendNew(base, Take(requirements, 3))
  }

  /** A base list is lower-case and repeats no entry. */
  predicate WellFormedBase(h: seq<string>) {
    AllLowercase(h) && NoDuplicates(h)
  }

  // One small proof per base list keeps each proof obligation cheap.
  lemma PythonBaseWellFormed() ensures WellFormedBase(BaseHierarchy(Python)) {}
  lemma JavaBaseWellFormed() ensures WellFormedBase(BaseHierarchy(Java)) {}
  lemma JavaScriptBaseWellFormed() ensures WellFormedBase(BaseHierarchy(JavaScript)) {}
  lemma AiMlBaseWellFormed() ensures WellFormedBase(BaseHierarchy(AiMl)) {}
  lemma DataBaseWellFormed() ensures WellFormedBase(BaseHierarchy(Data)) {}
  lemma DevOpsBaseWellFormed() ensures WellFormedBase(BaseHierarchy(DevOps)) {}
  lemma SecurityBaseWellFormed() ensures WellFormedBase(BaseHierarchy(Security)) {}

  lemma BaseHierarchyWellFormed(category: Category)
    ensures WellFormedBase(BaseHierarchy(category))
  {
    match category
    case Python => PythonBaseWellFormed();
    case Java => JavaBaseWellFormed();
    case JavaScript => JavaScriptBaseWellFormed();
    case AiMl => AiMlBaseWellFormed();
    case Data => DataBaseWellFormed();
    case DevOps => DevOpsBaseWellFormed();
    case Security => SecurityBaseWellFormed();
    case Other =>
  }

  // ---------------------------------------------------------------------------
  // Records.
  // ---------------------------------------------------------------------------

  /** A raw job record; `None` is a key missing from the input dictionary. */
  datatype RawJob = RawJob(
    title: Option<string>,
    company: Option<string>,
    location: Option<string>,
    description: Option<string>,
    requirements: Option<seq<string>>,
    niceToHave: Option<seq<string>>,
    sourceUrl: Option<string>,
    sourceSite: Option<string>,
    collectedAt: Option<string>)

  /** An enriched job record (the salary fields are not modelled). */
  datatype ProcessedJob = ProcessedJob(
    id: nat,
    title: string,
    company: string,
    location: string,
    description: string,
    requirements: seq<string>,
    niceToHave: seq<string>,
    salaryCurrency: string,
    jobType: string,
    experienceLevel: Level,
    sourceUrl: string,
    sourceSite: string,
    category: Category,
    educationRequired: Education,
    collectedAt: string,
    skillsHierarchy: seq<string>,
    remoteWork: bool,
    relocationSupport: bool)

  /** Enriches one job; `today` stands for the current date used when the record
      has no collection date. */
  function ProcessJob(job: RawJob, id: nat, today: string): (p: ProcessedJob)
    ensures p.id == id
    ensures p.salaryCurrency == "PLN" && p.jobType == "full-time"
    ensures p.title == job.title.GetOr("") && p.company == job.company.GetOr("")
    ensures p.location == job.location.GetOr("") && p.description == job.description.GetOr("")
    ensures p.requirements == job.requirements.GetOr([]) && p.niceToHave == job.niceToHave.GetOr([])
    ensures p.sourceUrl == job.sourceUrl.GetOr("") && p.sourceSite == job.sourceSite.GetOr("")
    ensures p.collectedAt == job.collectedAt.GetOr(today)
    ensures p.experienceLevel == ExperienceLevel(p.title)
    ensures p.category == Categorize(p.requirements, p.niceToHave)
    ensures p.educationRequired == EducationRequired(p.category, p.experienceLevel)
    ensures p.skillsHierarchy == SkillsHierarchy(p.category, p.requirements)
    ensures p.remoteWork == RemoteWork(p.location)
    ensures p.relocationSupport == RelocationSupport(p.experienceLevel, p.location)
  {
    var requirements := job.requirements.GetOr([]);
    var niceToHave := job.niceToHave.GetOr([]);
    var level := ExperienceLevel(job.title.GetOr(""));
    var category := Categorize(requirements, niceToHave);
    var location := job.location.GetOr("");
    ProcessedJob(
      id,
      job.title.GetOr(""),
      job.company.GetOr(""),
      location,
      job.description.GetOr(""),
      requirements,
      niceToHave,
      "PLN",
      "full-time",
      level,
      job.sourceUrl.GetOr(""),
      job.sourceSite.GetOr(""),
      category,
      EducationRequired(category, level),
      job.collectedAt.GetOr(today),
      SkillsHierarchy(category, requirements),
      RemoteWork(location),
      RelocationSupport(level, location))
  }

  /** `[f(x, first), f(x', first + 1), ...]`: maps `f` over `xs` together with
      each element's position counted from `first` (Python's `enumerate`). */
  function MapNumbered<X, Y>(f: (X, nat) -> Y, xs: seq<X>, first: nat): (r: seq<Y>)
    ensures |r| == |xs|
    ensures forall i :: 0 <= i < |xs| ==> r[i] == f(xs[i], first + i)
    decreases |xs|
  {
    if xs == [] then []
    else
      var rest := MapNumbered(f, xs[1..], first + 1);
      var r := [f(xs[0], first)] + rest;
      assert forall i :: 1 <= i < |xs| ==> r[i] == rest[i - 1] && xs[i] == xs[1..][i - 1];
      r
  }

  /** Pairs up two sequences of the same length, position by position. */
  function Zip<A, B>(xs: seq<A>, ys: seq<B>): (r: seq<(A, B)>)
    requires |xs| == |ys|
    ensures |r| == |xs|
    ensures forall i :: 0 <= i < |xs| ==> r[i] == (xs[i], ys[i])
  {
    seq(|xs|, i requires 0 <= i < |xs| => (xs[i], ys[i]))
  }

  /** `process_job_descriptions`: one enriched record per input job, in input
      order, with ids 1, 2, 3, ... The clock is read once per job, so `dates[i]`
      is the current date while job `i` is processed. */
  function ProcessJobDescriptions(jobs: seq<RawJob>, dates: seq<string>): (r: seq<ProcessedJob>)
    requires |dates| == |jobs|
    ensures |r| == |jobs|
    ensures forall i :: 0 <= i < |jobs| ==> r[i].id == i + 1
    ensures forall i :: 0 <= i < |jobs| ==> r[i] == ProcessJob(jobs[i], i + 1, dates[i])
  {
    MapNumbered((jd: (RawJob, string), id) => ProcessJob(jd.0, id, jd.1), Zip(jobs, dates), 1)
  }

  /** The clock only fills gaps: when every job carries its own collection date,
      the dates read while processing do not matter. */
  lemma DatesOnlyFillGaps(jobs: seq<RawJob>, dates: seq<string>, otherDates: seq<string>)
    requires |dates| == |jobs| && |otherDates| == |jobs|
    requires forall i :: 0 <= i < |jobs| ==> jobs[i].collectedAt.Some?
    ensures ProcessJobDescriptions(jobs, dates) == ProcessJobDescriptions(jobs, otherDates)
  {
    var r, r' := ProcessJobDescriptions(jobs, dates), ProcessJobDescriptions(jobs, otherDates);
    assert forall i :: 0 <= i < |jobs| ==> r[i] == r'[i];
  }

  // ---------------------------------------------------------------------------
  // Properties of the classifier.
  // ---------------------------------------------------------------------------

  /** An occurrence in `t` is an occurrence in any text that contains `t`. */
  lemma {:induction false} MentionsWordInContext(a: string, t: string, b: string, word: string)
    requires MentionsWord(t, word)
    ensures MentionsWord(a + t + b, word)
  {
    var i :| OccursAt(Lower(t), word, i);
    var u := a + t + b;
    LowerSlice(u, |a|, |a| + |t|);
    assert u[|a|..|a| + |t|] == t;
    OccursInSlice(Lower(u), Lower(t), |a|, word, i);
  }

  /** An occurrence in a slice is an occurrence in the whole string, shifted by
      the slice's offset. */
  lemma OccursInSlice(whole: string, part: string, offset: nat, word: string, i: int)
    requires offset + |part| <= |whole| && whole[offset..offset + |part|] == part
    requires OccursAt(part, word, i)
    ensures OccursAt(whole, word, offset + i)
  {
    forall m | offset + i <= m < offset + i + |word|
      ensures whole[m] == part[m - offset]
    {
      assert part[m - offset] == whole[offset..offset + |part|][m - offset];
    }
    assert whole[offset + i..offset + i + |word|] == part[i..i + |word|];
  }

  /** Adding text around a senior title never demotes it: a title stays senior
      in any longer title that contains it. */
  lemma SeniorTitleStaysSenior(a: string, title: string, b: string)
    requires ExperienceLevel(title) == Senior
    ensures ExperienceLevel(a + title + b) == Senior
  {
    var k :| 0 <= k < |SeniorKeywords| && MentionsWord(title, SeniorKeywords[k]);
    MentionsWordInContext(a, title, b, SeniorKeywords[k]);
  }

  /** The level ignores the case of the title. */
  lemma ExperienceLevelIgnoresCase(title: string)
    ensures ExperienceLevel(Lower(title)) == ExperienceLevel(title)
  {
    LowerIdempotent(title);
  }

  /** A title without any keyword, the missing title included, is mid level. */
  lemma EmptyTitleIsMid()
    ensures ExperienceLevel("") == Mid
  {
    assert Lower("") == "";
  }

  /** A senior keyword wins over a junior one. */
  lemma SeniorWinsOverJunior()
    ensures ExperienceLevel("Senior" + " Junior Developer") == Senior
  {
    assert OccursAt(Lower("Senior"), "senior", 0);
    SeniorTitleStaysSenior("", "Senior", " Junior Developer");
    assert "" + "Senior" + " Junior Developer" == "Senior" + " Junior Developer";
  }

  /** Keywords match inside longer words: the "sr" in "Israel" makes a title
      senior. */
  lemma KeywordInsideWord()
    ensures ExperienceLevel("Backend Developer, I" + "sr" + "ael") == Senior
  {
    assert OccursAt(Lower("sr"), "sr", 0);
    SeniorTitleStaysSenior("Backend Developer, I", "sr", "ael");
  }

  /** Rules fire on membership only, so two skill lists with the same members
      select the same category. */
  lemma {:induction false} FirstMatchUsesMembershipOnly(rules: seq<(Category, seq<string>)>, s1: seq<string>, s2: seq<string>)
    requires forall x :: x in s1 <==> x in s2
    ensures FirstMatch(rules, s1) == FirstMatch(rules, s2)
    decreases |rules|
  {
    if rules != [] {
      assert RuleFires(rules[0].1, s1) <==> RuleFires(rules[0].1, s2);
      FirstMatchUsesMembershipOnly(rules[1..], s1, s2);
    }
  }

  /** Whether a skill is a requirement or a nice-to-have does not matter to the
      category. */
  lemma CategorizeIgnoresListOrder(requirements: seq<string>, niceToHave: seq<string>)
    ensures Categorize(requirements, niceToHave) == Categorize(niceToHave, requirements)
  {
    var s1, s2 := LowerAll(requirements + niceToHave), LowerAll(niceToHave + requirements);
    forall x
      ensures x in s1 <==> x in s2
    {
      if x in s1 {
        var i :| 0 <= i < |s1| && s1[i] == x;
        if i < |requirements| {
          assert s2[|niceToHave| + i] == x;
        } else {
          assert s2[i - |requirements|] == x;
        }
      }
      if x in s2 {
        var i :| 0 <= i < |s2| && s2[i] == x;
        if i < |niceToHave| {
          assert s1[|requirements| + i] == x;
        } else {
          assert s1[i - |niceToHave|] == x;
        }
      }
    }
    FirstMatchUsesMembershipOnly(CategoryRules, s1, s2);
  }

  /** The category ignores the case of the entries. */
  lemma CategorizeIgnoresCase(requirements: seq<string>, niceToHave: seq<string>)
    ensures Categorize(LowerAll(requirements), niceToHave) == Categorize(requirements, niceToHave)
  {
    var s1, s3 := LowerAll(requirements + niceToHave), LowerAll(LowerAll(requirements) + niceToHave);
    forall i | 0 <= i < |s1|
      ensures s3[i] == s1[i]
    {
      if i < |requirements| {
        LowerIdempotent(requirements[i]);
        assert (LowerAll(requirements) + niceToHave)[i] == Lower(requirements[i]);
      } else {
        assert (LowerAll(requirements) + niceToHave)[i] == niceToHave[i - |requirements|];
      }
    }
    assert s3 == s1;
  }

  /** No category keyword is longer than 16 characters ("machine learning"). */
  lemma CategoryKeywordsShort()
    ensures forall i, k :: 0 <= i < |CategoryRules| && 0 <= k < |CategoryRules[i].1| ==> |CategoryRules[i].1[k]| <= 16
  {
  }

  /** Entries are compared whole, not searched: an entry longer than every
      keyword, such as "Python (5+ years)", selects no category on its own. */
  lemma LongEntryMatchesNothing(entry: string)
    requires |entry| > 16
    ensures Categorize([entry], []) == Other
  {
    CategoryKeywordsShort();
    assert LowerAll([entry] + []) == [Lower(entry)];
  }

  lemma WholeEntriesOnly()
    ensures Categorize(["Python (5+ years)"], []) == Other
  {
    LongEntryMatchesNothing("Python (5+ years)");
  }

  /** The rule order decides between categories: SQL and Java together give java. */
  lemma RuleOrderDecides()
    ensures Categorize(["SQL", "Java"], []) == Java
  {
    assert Lower("SQL") == "sql" && Lower("Java") == "java";
    var skills := LowerAll(["SQL", "Java"] + []);
    assert skills == ["sql", "java"];
    assert CategoryRules[1].1[0] in skills;
    assert !RuleFires(CategoryRules[0].1, skills);
  }

  /** Nice-to-have entries count as much as requirements. */
  lemma NiceToHaveCounts()
    ensures Categorize([], ["Django"]) == Python
  {
    assert Lower("Django") == "django";
    var skills := LowerAll([] + ["Django"]);
    assert skills == ["django"];
    assert CategoryRules[0].1[1] in skills;
  }

  /** A job record to re-process: every field present. */
  function AsRaw(p: ProcessedJob): RawJob {
    RawJob(
      Some(p.title), Some(p.company), Some(p.location), Some(p.description),
      Some(p.requirements), Some(p.niceToHave), Some(p.sourceUrl), Some(p.sourceSite),
      Some(p.collectedAt))
  }

  /** Processing is stable: an enriched record, fed back as a raw one, comes out
      unchanged, whatever the date. */
  lemma ReprocessingIsStable(job: RawJob, id: nat, today: string, later: string)
    ensures var p := ProcessJob(job, id, today); ProcessJob(AsRaw(p), id, later) == p
  {
  }

  /** A record depends on its position only through its id. */
  lemma PositionOnlySetsId(job: RawJob, m: nat, n: nat, today: string)
    ensures ProcessJob(job, m, today) == ProcessJob(job, n, today).(id := m)
  {
  }

  /** The flags and the education requirement agree with each other: a master's
      degree is asked only of senior roles, a job without remote work always
      supports relocation, and one without relocation support is a remote,
      non-senior job. */
  lemma ProcessedJobConsistent(job: RawJob, id: nat, today: string)
    ensures var p := ProcessJob(job, id, today);
      && (p.educationRequired == Master ==> p.experienceLevel == Senior)
      && (p.educationRequired == Master ==> p.category in {AiMl, Data})
      && (!p.remoteWork ==> p.relocationSupport)
      && (!p.relocationSupport ==> p.remoteWork && p.experienceLevel != Senior)
  {
    var p := ProcessJob(job, id, today);
    if !p.relocationSupport {
      assert MentionsWord(p.location, RemoteKeywords[0]);
    }
  }

  /** A non-senior hybrid job in Warsaw offers remote work and relocation. */
  lemma HybridLocationExample()
    ensures RemoteWork("Warsaw (Hybrid)")
    ensures RelocationSupport(Mid, "Warsaw (Hybrid)")
  {
    var t := Lower("Warsaw (Hybrid)");
    assert t == "warsaw (hybrid)";
    assert OccursAt(t, RemoteKeywords[1], 8);
    assert !MentionsWord("Warsaw (Hybrid)", "remote") by {
      forall i ensures !OccursAt(t, "remote", i) {
        if 0 <= i && i + 6 <= |t| {
          assert t[i..i + 6] != "remote" by {
            assert t[i..i + 6][0] == t[i] && t[i..i + 6][1] == t[i + 1];
          }
        }
      }
    }
  }

  // ---------------------------------------------------------------------------
  // Salary base bands (the category multiplier is not modelled).
  // ---------------------------------------------------------------------------

  /** The base salary range, in PLN, for a level. */
  function BaseSalaryBand(level: Level): (band: (nat, nat))
    ensures band.0 < band.1
  {
    match level
    case Junior => (8000, 15000)
    case Mid => (12000, 22000)
    case Senior => (18000, 35000)
  }

  /** A higher level has a higher floor and a higher ceiling, and adjacent bands
      overlap. */
  lemma SalaryBandsOrdered(a: Level, b: Level)
    requires a.Rank() < b.Rank()
    ensures BaseSalaryBand(a).0 < BaseSalaryBand(b).0
    ensures BaseSalaryBand(a).1 < BaseSalaryBand(b).1
    ensures b.Rank() == a.Rank() + 1 ==> BaseSalaryBand(b).0 < BaseSalaryBand(a).1
  {
  }
}
