# Smart Resume Matcher — job enrichment, configuration and upload rules in Dafny

This project models the rule-based parts of the Smart Resume Matcher that sit
around its (separate) scoring engine:

- **Job-description enrichment** (`process_job_descriptions`). Every raw job
  record becomes an enriched record with:
  - an experience level (senior/junior/mid) from keywords in the title;
  - a skill category from a fixed-priority rule chain over the requirement and
    nice-to-have entries;
  - an education requirement;
  - remote-work and relocation flags from the location;
  - a skills hierarchy without repetitions;
  - a 1-based id.
- **Configuration** (`config.py`). It covers:
  - the four matching weights and the three score thresholds, in hundredths;
  - the skill taxonomy `SKILLS_MAPPING`;
  - the accepted upload extensions;
  - the DEBUG flag derived from the environment;
  - the development/production/testing settings classes and the `config` name table.
- **Upload and matcher glue** (`app.py`):
  - `allowed_file`, the filename-extension check;
  - the default-filling that turns a stored resume into the record handed to the
    matcher.

Modules, one per component:

| file | module | models |
|---|---|---|
| optional.dfy | `Optional` | absent values (missing keys, NULL columns, unset variables) |
| strings.dfy | `AsciiStrings` | `str.lower()` on ASCII letters, and Python's substring test `sub in s` |
| configuration.dfy | `Configuration` | config.py |
| uploads.dfy | `Uploads` | `allowed_file` in app.py |
| resumes.dfy | `ResumeRecords` | the `resume_data` dictionary built in `match_resume` in app.py |
| jobs.dfy | `JobProcessing` | `process_job_descriptions` |

Outside inputs become parameters:

- The environment variables are an `Environment` value, with `None` for unset.
- The wall-clock date that fills a missing `collected_at` is a parameter: `today` for one
  job, and one date per job (`dates`) for a batch, since the source reads the clock
  for every job.
- A key missing from a job dictionary is `None` in `RawJob`.

Where the comments in the source and its code disagree, the model follows the code:

- The comment at process_job_descriptions.py:23 says the level comes "from title
  and requirements", but only the title is read.
- The comment at line 32 says the category comes from "requirements and title",
  but only the two skill lists are read.
- Line 56 has a separate junior branch for the education requirement. It returns
  the same `bachelor` as the final branch.

## Model

| member | source | states |
|---|---|---|
| JobProcessing.ProcessJobDescriptions | process_job_descriptions.py:12-137 | exactly one enriched record per input job, in input order, the i-th (from 0) carrying id i + 1 and enriched with the date read while it was processed |
| JobProcessing.DatesOnlyFillGaps | process_job_descriptions.py:129 | when every job carries its own collection date, the clock readings do not change the result |
| JobProcessing.MapNumbered | process_job_descriptions.py:18 | `enumerate(xs, first)`: the output has the input's length and position i holds the element at i paired with number first + i |
| JobProcessing.ProcessJob | process_job_descriptions.py:112-133 | missing title/company/location/description/source fields become "", missing lists become [], missing collection date becomes the current date, otherwise fields are copied unchanged; currency is always "PLN" and job type "full-time"; each derived field (level, category, education, skills hierarchy, remote, relocation) is the rule applied to the record's own copied fields |
| JobProcessing.ExperienceLevel | process_job_descriptions.py:24-30 | senior exactly when the lower-cased title contains "senior", "sr", "lead" or "principal" as a substring (junior keywords notwithstanding); junior exactly when no senior keyword but "junior", "jr" or "entry" occurs; mid exactly when none occurs |
| JobProcessing.SeniorTitleStaysSenior | process_job_descriptions.py:25-26 | a senior title stays senior inside any longer title that contains it |
| JobProcessing.ExperienceLevelIgnoresCase | process_job_descriptions.py:24 | lower-casing a title first does not change its level |
| JobProcessing.EmptyTitleIsMid | process_job_descriptions.py:24-30 | a missing (empty) title gives mid level |
| JobProcessing.SeniorWinsOverJunior | process_job_descriptions.py:25-28 | "Senior Junior Developer" is senior: the senior test comes first |
| JobProcessing.KeywordInsideWord | process_job_descriptions.py:25 | keywords match inside words: "Backend Developer, Israel" is senior because of the "sr" in "Israel" |
| JobProcessing.NamesDistinct | process_job_descriptions.py:26-59 | the level, category and education strings written to the output ("senior", "ai_ml", "master", ...) are pairwise distinct, so each names one value |
| JobProcessing.FirstMatch | process_job_descriptions.py:36-51 | for any rule list: when some rule fires, the result is the category of the first rule one of whose keywords is exactly an entry of the skill list; when none fires, `other` |
| JobProcessing.Categorize | process_job_descriptions.py:33-51 | the category is `other` exactly when no keyword of the python, java, javascript, ai_ml, data, devops or security rule is one of the lower-cased requirement and nice-to-have entries; otherwise it is the category of the first of those rules that fires |
| JobProcessing.CategoryRulesOrder | process_job_descriptions.py:36-51 | the rules are tried in the order python, java, javascript, ai_ml, data, devops, security, each once, and none yields `other` |
| JobProcessing.FirstMatchUsesMembershipOnly | process_job_descriptions.py:33-36 | two skill lists with the same members select the same category |
| JobProcessing.CategorizeIgnoresListOrder | process_job_descriptions.py:33 | swapping requirements and nice-to-have entries never changes the category |
| JobProcessing.CategorizeIgnoresCase | process_job_descriptions.py:34 | lower-casing the requirement entries first never changes the category |
| JobProcessing.LongEntryMatchesNothing | process_job_descriptions.py:34-51 | entries are compared whole: a single entry longer than every keyword selects `other` |
| JobProcessing.CategoryKeywordsShort | process_job_descriptions.py:36-49 | no category keyword is longer than 16 characters |
| JobProcessing.WholeEntriesOnly | process_job_descriptions.py:36-37 | "Python (5+ years)" alone does not select python |
| JobProcessing.RuleOrderDecides | process_job_descriptions.py:38-45 | requirements "SQL" and "Java" give java, since the java rule precedes the data rule |
| JobProcessing.NiceToHaveCounts | process_job_descriptions.py:21-37 | a nice-to-have "Django" alone selects python |
| JobProcessing.EducationRequired | process_job_descriptions.py:54-59 | master exactly when the category is ai_ml or data and the level is senior; bachelor otherwise |
| JobProcessing.RemoteWork | process_job_descriptions.py:87-88 | true exactly when the lower-cased location contains "remote" or "hybrid" |
| JobProcessing.RelocationSupport | process_job_descriptions.py:132 | true exactly when the level is senior or the lower-cased location does not contain "remote" |
| JobProcessing.ProcessedJobConsistent | process_job_descriptions.py:54-132 | across one enriched record: master only for senior ai_ml/data roles; no remote work implies relocation support; no relocation support implies a remote, non-senior job |
| JobProcessing.HybridLocationExample | process_job_descriptions.py:87-88 | a mid-level "Warsaw (Hybrid)" job has both remote work and relocation support |
| JobProcessing.BaseHierarchy | process_job_descriptions.py:91-105 | the base list is empty exactly for `other`, and has at most four entries |
| JobProcessing.BaseHierarchyWellFormed | process_job_descriptions.py:92-105 | every base list is lower-case and repeats no entry |
| JobProcessing.SkillsHierarchy | process_job_descriptions.py:91-110 | the hierarchy starts with the category's base list; it is lower-case and repeats nothing; it has at most base length + min(3, number of requirements) entries; every added entry is a lower-cased one of the first three requirements, and each of those is present; the added entries appear in the order of the requirements that introduce them |
| JobProcessing.Take | process_job_descriptions.py:108 | `xs[:n]` is the prefix of length min(n, len(xs)) |
| JobProcessing.AppendNew | process_job_descriptions.py:108-110 | the append loop keeps the list it starts from as a prefix and adds at most one entry per skill |
| JobProcessing.AppendNewClean | process_job_descriptions.py:109-110 | from a lower-case list without repetitions, the result is lower-case without repetitions (case-insensitive skip) |
| JobProcessing.AppendNewSound | process_job_descriptions.py:110 | every added entry is the lower-cased form of one of the skills |
| JobProcessing.AppendNewComplete | process_job_descriptions.py:108-110 | from a lower-case list, every skill ends up present in lower-cased form |
| JobProcessing.AppendNewOrdered | process_job_descriptions.py:108-110 | from a lower-case list without repetitions, an entry added later is introduced only by skills that come after some skill introducing each earlier-added entry, so entries are appended in skill order |
| JobProcessing.ReprocessingIsStable | process_job_descriptions.py:112-133 | an enriched record fed back in as a raw record comes out unchanged, whatever the current date |
| JobProcessing.PositionOnlySetsId | process_job_descriptions.py:113 | a record depends on its position only through its id |
| JobProcessing.BaseSalaryBand | process_job_descriptions.py:62-68 | each level's base range has minimum below maximum |
| JobProcessing.SalaryBandsOrdered | process_job_descriptions.py:62-66 | a higher level has a higher base minimum and maximum, and adjacent bands overlap |
| AsciiStrings.LowerChar | process_job_descriptions.py:24 | an upper-case ASCII letter becomes the lower-case letter 32 code points above it ('A' to 'a', ..., 'Z' to 'z'); any other character is kept |
| AsciiStrings.Lower | process_job_descriptions.py:24 | lower-casing keeps the length, leaves no upper-case letter, maps each capital to its own lower-case letter, keeps every other character, and leaves a lower-case string unchanged |
| AsciiStrings.LowerExamples | process_job_descriptions.py:34 | "SQL" lowers to "sql" and "Node.JS" to "node.js" |
| AsciiStrings.Contains | process_job_descriptions.py:25 | Python's `sub in s`: true exactly when `sub` starts at some position of `s` (always for the empty `sub`) |
| AsciiStrings.AnyContained | process_job_descriptions.py:25-27 | `any(w in s for w in words)`: some word occurs at some position |
| Configuration.MatchWeights | config.py:32-35 | the weights 40/30/20/10 hundredths are fractions, strictly decreasing, positive, and sum to 100 |
| Configuration.MatchThresholds | config.py:38-40 | the thresholds 30/60/80 hundredths are fractions with 0 < MIN_MATCH_SCORE < MEDIUM_MATCH_THRESHOLD < HIGH_MATCH_THRESHOLD < 100 |
| Configuration.SkillsMappingWellFormed | config.py:68-78 | nine categories with distinct names, none with an empty alias list, every alias lower-case, no alias under two categories |
| Configuration.CategoryOf | config.py:68-78 | alias lookup returns nothing exactly when no category lists the alias, and otherwise the name of a category that lists it |
| Configuration.CategoryOfWellDefined | config.py:68-78 | in a well-formed taxonomy the lookup yields category c exactly when c lists the alias |
| Configuration.SkillsMappingLookup | config.py:68-78 | in the shipped taxonomy, alias-to-category lookup is a function: it yields a category exactly when that category lists the alias |
| Configuration.AllowedExtensionsShape | config.py:43 | four extensions, each non-empty, lower-case and without a leading dot |
| Configuration.DebugFlag | config.py:48 | DEBUG is false when the variable is unset and otherwise true exactly when its lower-cased value is "true" |
| Configuration.DebugFlagCaseInsensitive | config.py:48 | "TRUE" and "True" enable DEBUG, "1", "yes" and " true" do not, and case never matters |
| Configuration.BaseConfig | config.py:12-51 | each of DATABASE_URL, SECRET_KEY and LOG_LEVEL is the environment's value when set and its default ("sqlite:///resume_matcher.db", "your-secret-key-here", "INFO") when unset; DEBUG follows its variable; TESTING is off |
| Configuration.DevelopmentConfig | config.py:80-83 | DEBUG on and log level "DEBUG"; database URL and secret key inherited from the base class; TESTING off |
| Configuration.ProductionConfig | config.py:85-88 | DEBUG off and log level "WARNING"; database URL and secret key inherited from the base class; TESTING off |
| Configuration.TestingConfig | config.py:90-93 | the test database URL and TESTING on; secret key, DEBUG and log level inherited from the base class |
| Configuration.ClassAttributesIgnoreEnvironment | config.py:80-93 | the DEBUG and LOG_LEVEL variables cannot change the development or production settings, and DATABASE_URL cannot change the testing settings |
| Configuration.ConfigFor | config.py:96-101 | the table has an entry exactly for development, production, testing and default |
| Configuration.ConfigTable | config.py:80-101 | default equals development; development has DEBUG on and log level DEBUG; production has DEBUG off and log level WARNING, whatever the environment; testing differs from the base only in its database URL and TESTING flag |
| Configuration.DatabaseUrlSource | config.py:16 | every class but testing takes DATABASE_URL from the environment, defaulting to the sqlite file; testing always uses the test database |
| Uploads.LastDot | app.py:57 | the last dot's position: none exactly when the name has no dot, otherwise a dot with no dot after it |
| Uploads.Extension | app.py:57 | `rsplit('.', 1)[1]`: the dot-free suffix that follows a dot |
| Uploads.AllowedFile | app.py:54-57 | false for a name without a dot; otherwise true exactly when the text after the last dot, lower-cased, is an allowed extension |
| Uploads.AllowedFileDecidedByLastSegment | app.py:56-57 | for any stem, dots included, and any dot-free extension, `stem.ext` is accepted exactly when the lower-cased extension is allowed |
| Uploads.AllowedFileCaseInsensitive | app.py:57 | a name and its lower-cased form are judged alike |
| Uploads.AllowedFileLastSegmentExamples | app.py:57 | "cv.pdf.exe" is refused and "cv.exe.pdf" accepted |
| Uploads.AllowedFileUpperCaseExample | app.py:57 | "CV.PDF" is accepted |
| Uploads.AllowedFileMixedCaseExample | app.py:57 | "resume.Docx" is accepted |
| Uploads.AllowedFileEdgeExamples | app.py:56-57 | "cv." is refused, ".pdf" accepted, and "pdf" and "" refused |
| ResumeRecords.MatcherInput | app.py:357-365 | absent skills and details become [], absent years become 0, present values pass through, and name, education level and location pass through even when absent |
| ResumeRecords.MatcherInputRoundTrip | app.py:357-365 | a matcher record stored back and read again is unchanged, so the defaulting is idempotent |
| ResumeRecords.AbsentIsDefault | app.py:359-364 | the matcher cannot tell an absent list from an empty one, or absent years from 0 |
| ResumeRecords.OptionalFieldsStayOptional | app.py:361-362 | an absent education level or location reaches the matcher absent, distinguishable from an empty location |

## Left out

- Salary amounts (process_job_descriptions.py:70-84): the float multiplier
  followed by `int()` truncation is not modelled. Only the base band per level
  is (`BaseSalaryBand`), and the enriched record carries no salary fields. In
  double arithmetic `int(12000 * 1.15)` is 13799, so exact rational arithmetic
  would disagree with the source.
- Reading the clock: `datetime.now()` is evaluated once per job (line 129), so the
  dates are inputs, `today` for `ProcessJob` and `dates` for
  `ProcessJobDescriptions`; the `%Y-%m-%d` formatting is not modelled.
- `main()` in process_job_descriptions.py: hard-coded sample data, a JSON file
  write and printed statistics with float averages.
- Explicit `null` values in a job dictionary: the model's fields are strings
  and lists, so a key is either missing or holds a value. In the source:
  - a null `title` or `location` raises at `.lower()` (lines 24 and 87);
  - a null `requirements` or `nice_to_have` raises a `TypeError` at the `+`
    on line 33;
  - a null `company`, `description`, `source_url` or `source_site` is copied to
    the output as null (lines 115-126), with no error;
  - a null `collected_at` stays null and is not replaced by the current date
    (line 129).
- Python's Unicode-aware `str.lower()`: `Lower` lowers only the ASCII letters.
  No keyword, extension or taxonomy alias contains a non-ASCII letter. A few
  non-ASCII characters lower-case to ASCII ones (the Kelvin sign to "k"), so a
  requirement such as "KOTLIN" would select java in the source but not in
  the model.
- `os.getenv` and `load_dotenv`: environment values are the explicit
  `Environment` parameter. The base class reads them once at import time; the
  model evaluates the settings for a given environment.
- Configuration.MatchWeights: states the weights as exact hundredths summing to
  100. The source's float literals 0.4 + 0.3 + 0.2 + 0.1, added left to right
  in IEEE-754 double arithmetic, give 0.9999999999999999.
- Configuration.MatchThresholds: thresholds are exact hundredths, not floats.
- Other `Config` constants: URLs, scraping delay and retries, user agent, model
  names, `JOB_CATEGORIES`, log file, cache timeout, rate limit. Nothing in the
  modelled code uses them. `MAX_FILE_SIZE` (config.py:44) is declared as
  `MaxFileSize` for reference, but nothing in the modelled code reads it, so no
  property is stated about it.
- `TESTING` exists only on the testing class in the source. `Settings.testing`
  is false for the other classes.
- Flask routes, database sessions, file saving, uuid generation and logging in
  app.py: HTTP, database and file-system I/O.
- `secure_filename` (app.py:209): a call into the Werkzeug library.
- The matching engine, job scraper, resume parser and ORM models
  (`services/*`, `database/models`) are not part of this model: their source is
  not available, so no scoring, ranking or recommendation rule is modelled.
- The resume's experience and education detail entries are JSON objects in the
  source; the model keeps each entry as its text, since only their presence is
  defaulted.
- setup.py: package installation, directory creation and import checks.
