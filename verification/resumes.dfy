/** The record a stored resume is turned into before it is handed to the matcher:
    absent lists become empty, absent years become 0, and the education level and
    location are passed on as they are, absent or not. */
module ResumeRecords {
  import opened Optional

  /** A resume row as stored; `None` is a NULL column. Experience and education
      details are JSON entries, each kept as its text. */
  datatype StoredResume = StoredResume(
    candidateName: Option<string>,
    skillsExtracted: Option<seq<string>>,
    experienceYears: Option<int>,
    educationLevel: Option<string>,
    location: Option<string>,
    experienceDetails: Option<seq<string>>,
    educationDetails: Option<seq<string>>)

  /** The dictionary the matcher receives. */
  datatype MatcherResume = MatcherResume(
    candidateName: Option<string>,
    skills: seq<string>,
    experienceYears: int,
    educationLevel: Option<string>,
    location: Option<string>,
    experienceDetails: seq<string>,
    educationDetails: seq<string>)

  /** Python's `value or default` on a list or a number: the default replaces an
      absent value, and replacing an empty list by the empty list, or 0 by 0,
      changes nothing. */
  function MatcherInput(r: StoredResume): (m: MatcherResume)
    ensures r.skillsExtracted.Some? ==> m.skills == r.skillsExtracted.value
    ensures r.skillsExtracted.None? ==> m.skills == []
    ensures r.experienceYears.Some? ==> m.experienceYears == r.experienceYears.value
    ensures r.experienceYears.None? ==> m.experienceYears == 0
    ensures r.experienceDetails.Some? ==> m.experienceDetails == r.experienceDetails.value
    ensures r.experienceDetails.None? ==> m.experienceDetails == []
    ensures r.educationDetails.Some? ==> m.educationDetails == r.educationDetails.value
    ensures r.educationDetails.None? ==> m.educationDetails == []
    ensures m.candidateName == r.candidateName
    ensures m.educationLevel == r.educationLevel && m.location == r.location
  {
    MatcherResume(
      r.candidateName,
      r.skillsExtracted.GetOr([]),
      r.experienceYears.GetOr(0),
      r.educationLevel,
      r.location,
      r.experienceDetails.GetOr([]),
      r.educationDetails.GetOr([]))
  }

  /** A matcher record stored back with every column filled. */
  function Stored(m: MatcherResume): StoredResume {
    StoredResume(
      m.candidateName, Some(m.skills), Some(m.experienceYears), m.educationLevel,
      m.location, Some(m.experienceDetails), Some(m.educationDetails))
  }

  /** Storing a matcher record and reading it back gives the same record, so the
      defaulting is idempotent. */
  lemma MatcherInputRoundTrip(m: MatcherResume, r: StoredResume)
    ensures MatcherInput(Stored(m)) == m
    ensures MatcherInput(Stored(MatcherInput(r))) == MatcherInput(r)
  {
  }

  /** The matcher cannot tell an absent column from its default: no skills and an
      empty skill list, unknown and zero years, give the same record. */
  lemma AbsentIsDefault(r: StoredResume)
    ensures MatcherInput(r.(skillsExtracted := None)) == MatcherInput(r.(skillsExtracted := Some([])))
    ensures MatcherInput(r.(experienceYears := None)) == MatcherInput(r.(experienceYears := Some(0)))
    ensures MatcherInput(r.(experienceDetails := None)) == MatcherInput(r.(experienceDetails := Some([])))
    ensures MatcherInput(r.(educationDetails := None)) == MatcherInput(r.(educationDetails := Some([])))
  {
  }

  /** An absent education level or location stays absent: unlike the lists and
      the years, the matcher sees the difference. */
  lemma OptionalFieldsStayOptional(r: StoredResume)
    ensures MatcherInput(r.(educationLevel := None)).educationLevel.None?
    ensures MatcherInput(r.(location := None)).location.None?
    ensures MatcherInput(r.(location := None)) != MatcherInput(r.(location := Some("")))
  {
  }
}
