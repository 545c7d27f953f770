/** The application configuration: the matching weights and score thresholds, the
    skill taxonomy, the accepted upload extensions, and the per-environment
    settings classes with their lookup table. Environment variables are an explicit
    `Environment` value instead of process state. */
module Configuration {
  import opened Optional
  import opened AsciiStrings

  // ---------------------------------------------------------------------------
  // Matching weights and thresholds, in hundredths (0.4 is 40).
  // ---------------------------------------------------------------------------

  datatype Weights = Weights(skill: nat, experience: nat, education: nat, location: nat) {
    function Total(): nat {
      skill + experience + education + location
    }
  }

  /** Hundredths that lie in [0, 1]. */
  predicate IsFraction(x: int) {
    0 <= x <= 100
  }

  /** The four factor weights of the matcher. */
  function MatchWeights(): (w: Weights)
    ensures w.Total() == 100
    ensures IsFraction(w.skill) && IsFraction(w.experience)
    ensures IsFraction(w.education) && IsFraction(w.location)
    ensures w.skill > w.experience > w.education > w.location > 0
  {
    Weights(40, 30, 20, 10)
  }

  datatype Thresholds = Thresholds(minMatch: nat, medium: nat, high: nat)

  /** The three score bands' lower bounds. */
  function MatchThresholds(): (t: Thresholds)
    ensures IsFraction(t.minMatch) && IsFraction(t.medium) && IsFraction(t.high)
    ensures 0 < t.minMatch < t.medium < t.high < 100
  {
    Thresholds(30, 60, 80)
  }

  /** Upload size cap in bytes (10 MiB). */
  const MaxFileSize: nat := 10 * 1024 * 1024

  // ---------------------------------------------------------------------------
  // Skill taxonomy: category name followed by its aliases, in declaration order.
  // ---------------------------------------------------------------------------

  const SkillsMapping: seq<(string, seq<string>)> := [
    ("python", ["python", "django", "flask", "fastapi", "pandas", "numpy"]),
    ("javascript", ["javascript", "js", "node.js", "react", "angular", "vue"]),
    ("java", ["java", "spring", "hibernate", "maven"]),
    ("sql", ["sql", "mysql", "postgresql", "mongodb", "redis"]),
    ("aws", ["aws", "amazon web services", "ec2", "s3", "lambda"]),
    ("docker", ["docker", "kubernetes", "containerization"]),
    ("git", ["git", "github", "gitlab", "version control"]),
    ("machine_learning", ["ml", "machine learning", "tensorflow", "pytorch", "scikit-learn"]),
    ("data_science", ["data science", "data analysis", "statistics", "r"])
  ]

  /** Alias `a` is listed under entry `c` of `m`. */
  predicate ListedUnder(m: seq<(string, seq<string>)>, c: int, a: string) {
    0 <= c < |m| && a in m[c].1
  }

  /** A well-formed taxonomy: distinct category names, each with at least one
      alias, every alias lower-case, and no alias under two categories. */
  ghost predicate WellFormedTaxonomy(m: seq<(string, seq<string>)>) {
    && (forall c, d :: 0 <= c < d < |m| ==> m[c].0 != m[d].0)
    && (forall c :: 0 <= c < |m| ==> |m[c].1| > 0)
    && (forall c, a :: ListedUnder(m, c, a) ==> IsLowercase(a))
    && (forall a, c, d :: ListedUnder(m, c, a) && ListedUnder(m, d, a) ==> c == d)
  }

  /** The category an alias belongs to: the first entry listing it. */
  function CategoryOf(m: seq<(string, seq<string>)>, a: string): (r: Option<string>)
    ensures r.None? <==> forall c :: !ListedUnder(m, c, a)
    ensures r.Some? ==> exists c :: ListedUnder(m, c, a) && m[c].0 == r.value
  {
    if m == [] then None
    else if a in m[0].1 then
      assert ListedUnder(m, 0, a);
      Some(m[0].0)
    else
      var r := CategoryOf(m[1..], a);
      assert forall c :: ListedUnder(m[1..], c, a) ==> ListedUnder(m, c + 1, a);
      assert forall c :: ListedUnder(m, c, a) ==> ListedUnder(m[1..], c - 1, a);
      r
  }

  /** In a well-formed taxonomy the alias lookup is a function: an alias maps to
      a category exactly when it is listed under it. */
  lemma CategoryOfWellDefined(m: seq<(string, seq<string>)>, a: string, c: int)
    requires WellFormedTaxonomy(m)
    requires 0 <= c < |m|
    ensures CategoryOf(m, a) == Some(m[c].0) <==> a in m[c].1
  {
    var r := CategoryOf(m, a);
    if r == Some(m[c].0) {
      var d :| ListedUnder(m, d, a) && m[d].0 == r.value;
      assert d == c;
    }
    if a in m[c].1 {
      assert ListedUnder(m, c, a);
      var d :| ListedUnder(m, d, a) && m[d].0 == r.value;
      assert d == c;
    }
  }

  /** No alias of `xs` is also in `ys`. */
  predicate Disjoint(xs: seq<string>, ys: seq<string>) {
    forall k, j :: 0 <= k < |xs| && 0 <= j < |ys| ==> xs[k] != ys[j]
  }

  /** No later entry of `m` lists an alias of entry `c`. */
  predicate NotListedLater(m: seq<(string, seq<string>)>, c: nat)
    requires c < |m|
  {
    forall d :: c < d < |m| ==> Disjoint(m[c].1, m[d].1)
  }

  // One small proof per taxonomy entry and property keeps each proof obligation cheap.
  lemma PythonAliasesLowercase() ensures AllLowercase(SkillsMapping[0].1) {}
  lemma JavascriptAliasesLowercase() ensures AllLowercase(SkillsMapping[1].1) {}
  lemma JavaAliasesLowercase() ensures AllLowercase(SkillsMapping[2].1) {}
  lemma SqlAliasesLowercase() ensures AllLowercase(SkillsMapping[3].1) {}
  lemma AwsAliasesLowercase() ensures AllLowercase(SkillsMapping[4].1) {}
  lemma DockerAliasesLowercase() ensures AllLowercase(SkillsMapping[5].1) {}
  lemma GitAliasesLowercase() ensures AllLowercase(SkillsMapping[6].1) {}
  lemma MachineLearningAliasesLowercase() ensures AllLowercase(SkillsMapping[7].1) {}
  lemma DataScienceAliasesLowercase() ensures AllLowercase(SkillsMapping[8].1) {}
  lemma PythonAliasesNotListedLater() ensures NotListedLater(SkillsMapping, 0) {}
  lemma JavascriptAliasesNotListedLater() ensures NotListedLater(SkillsMapping, 1) {}
  lemma JavaAliasesNotListedLater() ensures NotListedLater(SkillsMapping, 2) {}
  lemma SqlAliasesNotListedLater() ensures NotListedLater(SkillsMapping, 3) {}
  lemma AwsAliasesNotListedLater() ensures NotListedLater(SkillsMapping, 4) {}
  lemma DockerAliasesNotListedLater() ensures NotListedLater(SkillsMapping, 5) {}
  lemma GitAliasesNotListedLater() ensures NotListedLater(SkillsMapping, 6) {}
  lemma MachineLearningAliasesNotListedLater() ensures NotListedLater(SkillsMapping, 7) {}
  lemma DataScienceAliasesNotListedLater() ensures NotListedLater(SkillsMapping, 8) {}

  /** A taxonomy whose entries have lower-case aliases that no later entry lists
      has no alias under two categories. */
  lemma EntriesCheckedAliases(m: seq<(string, seq<string>)>)
    requires forall c :: 0 <= c < |m| ==> AllLowercase(m[c].1) && NotListedLater(m, c)
    ensures forall c, a :: ListedUnder(m, c, a) ==> IsLowercase(a)
    ensures forall a, c, d :: ListedUnder(m, c, a) && ListedUnder(m, d, a) ==> c == d
  {
    forall c, a | ListedUnder(m, c, a)
      ensures IsLowercase(a)
    {
      assert AllLowercase(m[c].1) && NotListedLater(m, c);
      var k :| 0 <= k < |m[c].1| && m[c].1[k] == a;
    }
    forall a, c, d | ListedUnder(m, c, a) && ListedUnder(m, d, a)
      ensures c == d
    {
    }
  }

  /** The shipped taxonomy is well formed: nine categories with distinct names,
      none empty, all aliases lower-case, no alias shared. */
  lemma SkillsMappingWellFormed()
    ensures |SkillsMapping| == 9
    ensures WellFormedTaxonomy(SkillsMapping)
  {
    PythonAliasesLowercase();
    PythonAliasesNotListedLater();
    JavascriptAliasesLowercase();
    JavascriptAliasesNotListedLater();
    JavaAliasesLowercase();
    JavaAliasesNotListedLater();
    SqlAliasesLowercase();
    SqlAliasesNotListedLater();
    AwsAliasesLowercase();
    AwsAliasesNotListedLater();
    DockerAliasesLowercase();
    DockerAliasesNotListedLater();
    GitAliasesLowercase();
    GitAliasesNotListedLater();
    MachineLearningAliasesLowercase();
    MachineLearningAliasesNotListedLater();
    DataScienceAliasesLowercase();
    DataScienceAliasesNotListedLater();
    EntriesCheckedAliases(SkillsMapping);
  }

  /** Looking an alias up in the shipped taxonomy yields the one category that
      lists it, and nothing for a term no category lists. */
  lemma SkillsMappingLookup(a: string, c: int)
    requires 0 <= c < |SkillsMapping|
    ensures CategoryOf(SkillsMapping, a) == Some(SkillsMapping[c].0) <==> a in SkillsMapping[c].1
  {
    SkillsMappingWellFormed();
    CategoryOfWellDefined(SkillsMapping, a, c);
  }

  // ---------------------------------------------------------------------------
  // Accepted upload extensions: lower-case, without the leading dot.
  // ---------------------------------------------------------------------------

  const AllowedExtensions: set<string> := {"pdf", "docx", "doc", "txt"}

  lemma AllowedExtensionsShape()
    ensures |AllowedExtensions| == 4
    ensures forall e :: e in AllowedExtensions ==> IsLowercase(e) && |e| > 0 && e[0] != '.'
  {
  }

  // ---------------------------------------------------------------------------
  // Environment-dependent settings.
  // ---------------------------------------------------------------------------

  /** The environment variables the configuration reads; `None` when unset. */
  datatype Environment = Environment(
    databaseUrl: Option<string>,
    secretKey: Option<string>,
    debug: Option<string>,
    logLevel: Option<string>)

  /** The settings a configuration class exposes. `testing` is true only where the
      class sets it. */
  datatype Settings = Settings(
    databaseUrl: string,
    secretKey: string,
    debug: bool,
    logLevel: string,
    testing: bool)

  /** The DEBUG flag of the base class: the variable, lower-cased, is "true";
      "False" when unset. */
  function DebugFlag(value: Option<string>): (r: bool)
    ensures value.None? ==> !r
    ensures value.Some? ==> (r <==> Lower(value.value) == "true")
  {
    Lower(value.GetOr("False")) == "true"
  }

  /** The base class: each variable the environment sets is taken as given,
      each unset one takes its default; DEBUG is derived from its variable, and
      TESTING is off. */
  function BaseConfig(env: Environment): (s: Settings)
    ensures s.databaseUrl == env.databaseUrl.GetOr("sqlite:///resume_matcher.db")
    ensures s.secretKey == env.secretKey.GetOr("your-secret-key-here")
    ensures s.debug == DebugFlag(env.debug)
    ensures s.logLevel == env.logLevel.GetOr("INFO")
    ensures !s.testing
  {
    Settings(
      env.databaseUrl.GetOr("sqlite:///resume_matcher.db"),
      env.secretKey.GetOr("your-secret-key-here"),
      DebugFlag(env.debug),
      env.logLevel.GetOr("INFO"),
      false)
  }

  /** Development: DEBUG on and log level "DEBUG" whatever the environment says;
      everything else inherited from the base class. */
  function DevelopmentConfig(env: Environment): (s: Settings)
    ensures s.debug && s.logLevel == "DEBUG"
    ensures s.databaseUrl == BaseConfig(env).databaseUrl && s.secretKey == BaseConfig(env).secretKey
    ensures !s.testing
  {
    BaseConfig(env).(debug := true, logLevel := "DEBUG")
  }

  /** Production: DEBUG off and log level "WARNING" whatever the environment
      says; everything else inherited from the base class. */
  function ProductionConfig(env: Environment): (s: Settings)
    ensures !s.debug && s.logLevel == "WARNING"
    ensures s.databaseUrl == BaseConfig(env).databaseUrl && s.secretKey == BaseConfig(env).secretKey
    ensures !s.testing
  {
    BaseConfig(env).(debug := false, logLevel := "WARNING")
  }

  /** Testing: the test database whatever DATABASE_URL says, and TESTING on;
      everything else inherited from the base class. */
  function TestingConfig(env: Environment): (s: Settings)
    ensures s.databaseUrl == "sqlite:///test_resume_matcher.db" && s.testing
    ensures s.secretKey == BaseConfig(env).secretKey && s.debug == BaseConfig(env).debug
    ensures s.logLevel == BaseConfig(env).logLevel
  {
    BaseConfig(env).(databaseUrl := "sqlite:///test_resume_matcher.db", testing := true)
  }

  const ConfigNames: set<string> := {"development", "production", "testing", "default"}

  /** The `config` table: a name to its settings; an unknown name has none. */
  function ConfigFor(name: string, env: Environment): (r: Option<Settings>)
    ensures r.Some? <==> name in ConfigNames
  {
    match name
    case "development" => Some(DevelopmentConfig(env))
    case "production" => Some(ProductionConfig(env))
    case "testing" => Some(TestingConfig(env))
    case "default" => Some(DevelopmentConfig(env))
    case _ => None
  }

  /** The DEBUG variable is read case-insensitively; only the word "true" enables it. */
  lemma DebugFlagCaseInsensitive(s: string)
    ensures DebugFlag(Some(s)) == DebugFlag(Some(Lower(s)))
    ensures DebugFlag(Some("TRUE")) && DebugFlag(Some("True"))
    ensures !DebugFlag(Some("1")) && !DebugFlag(Some("yes")) && !DebugFlag(Some(" true"))
  {
    LowerIdempotent(s);
    assert Lower("TRUE") == "true";
    assert Lower("True") == "true";
    assert Lower("yes") == "yes";
  }

  /** The environment table: "default" is the development settings; development
      and production fix DEBUG and the log level whatever the environment says;
      testing changes only the database URL and the TESTING flag. */
  lemma ConfigTable(env: Environment)
    ensures ConfigFor("default", env) == ConfigFor("development", env)
    ensures var d := ConfigFor("development", env).value; d.debug && d.logLevel == "DEBUG"
    ensures var p := ConfigFor("production", env).value; !p.debug && p.logLevel == "WARNING"
    ensures var t, b := ConfigFor("testing", env).value, BaseConfig(env);
      && t.testing && !b.testing
      && t.databaseUrl == "sqlite:///test_resume_matcher.db"
      && t.secretKey == b.secretKey && t.debug == b.debug && t.logLevel == b.logLevel
    ensures forall name :: name in ConfigNames && name != "testing" ==> !ConfigFor(name, env).value.testing
  {
  }

  /** The class attributes the subclasses set cannot be overridden from the
      environment: DEBUG and LOG_LEVEL for development and production,
      DATABASE_URL for testing. */
  lemma ClassAttributesIgnoreEnvironment(env: Environment, d: Option<string>, l: Option<string>, u: Option<string>)
    ensures DevelopmentConfig(env.(debug := d, logLevel := l)) == DevelopmentConfig(env)
    ensures ProductionConfig(env.(debug := d, logLevel := l)) == ProductionConfig(env)
    ensures TestingConfig(env.(databaseUrl := u)) == TestingConfig(env)
  {
  }

  /** Only the testing settings ignore DATABASE_URL; the others take it from the
      environment when it is set. */
  lemma DatabaseUrlSource(env: Environment, name: string)
    requires name in ConfigNames
    ensures name == "testing" ==> ConfigFor(name, env).value.databaseUrl == "sqlite:///test_resume_matcher.db"
    ensures name != "testing" && env.databaseUrl.Some? ==> ConfigFor(name, env).value.databaseUrl == env.databaseUrl.value
    ensures name != "testing" && env.databaseUrl.None? ==> ConfigFor(name, env).value.databaseUrl == "sqlite:///resume_matcher.db"
  {
  }
}
