/** The advanced recommendation scorer (`AdvancedCareerAI` in
    recommendations/ai_engine.py). Every career of the catalog gets four sub-scores
    (personality, skills, education, market) that are combined with fixed weights; the
    results are ranked by that total and carry a skill-gap list and a learning path. */
module CareerAI {
  import opened Wrappers
  import opened Text
  import opened Skills
  import opened Ranking

  datatype SalaryRange = SalaryRange(min: int, max: int, median: int)

  /** One record of the career catalog; the catalog is never changed. */
  datatype Career = Career(
    id: int,
    title: string,
    category: string,
    skills: seq<string>,
    personalityTraits: seq<string>,
    educationRequired: string,
    experienceLevel: string,
    salaryRange: SalaryRange,
    jobGrowth: int,
    demandScore: int,
    remoteFriendly: bool,
    stressLevel: string,
    description: string,
    dayToDay: seq<string>,
    companies: seq<string>)

  /** The affinity weights of one personality code, in the table's key order. */
  datatype TraitVector = TraitVector(analytical: real, creative: real, social: real, practical: real)

  datatype Trend = Trend(growth: int, remoteWork: int, salaryGrowth: int)

  /** The user profile. A missing personality type or skill text is "" (Python treats
      a missing value and "" alike here); a missing education level is "high_school";
      `remoteWork` is `preferences['remote_work']` when present. */
  datatype UserData = UserData(
    personalityType: string,
    skills: string,
    educationLevel: string,
    remoteWork: Option<real>)

  datatype DetailedScores = DetailedScores(personality: real, skills: real, education: real, market: real)

  datatype LearningPath = LearningPath(
    prioritySkills: seq<string>,
    recommendedCourses: seq<string>,
    timelineEstimate: string,
    resources: seq<string>)

  /** One entry of the result; scores are the unrounded fractions. */
  datatype Recommendation = Recommendation(
    career: string,
    category: string,
    matchScore: real,
    detailedScores: DetailedScores,
    description: string,
    salaryRange: SalaryRange,
    jobGrowth: int,
    experienceLevel: string,
    missingSkills: seq<string>,
    learningPath: LearningPath,
    companies: seq<string>,
    dayToDay: seq<string>,
    demandScore: int,
    remoteFriendly: bool)

  /** numpy's cosine similarity of two affinity vectors; supplied by the caller. */
  type Cosine = (TraitVector, TraitVector) -> real

  /** The engine's tables: the career catalog, the personality affinity table, the
      industry trends, and the course table the learning path draws on. The engine never
      changes them; `Default` holds the tables the repository ships. */
  datatype Engine = Engine(
    careerDatabase: seq<Career>,
    personalityMapping: map<string, TraitVector>,
    industryTrends: map<string, Trend>,
    courseMapping: map<string, seq<string>>)

  // ---------------------------------------------------------------- static tables

  const CareerDatabase: seq<Career> := [
    Career(1, "Data Scientist", "Technology",
      ["Python", "Machine Learning", "Statistics", "SQL", "Data Analysis",
       "Deep Learning", "Data Visualization", "Big Data", "R", "TensorFlow"],
      ["INTJ", "INTP", "ENTJ", "ISTJ"],
      "Bachelor's in Computer Science or related field", "Mid to Senior",
      SalaryRange(80000, 180000, 120000), 31, 95, true, "Medium-High",
      "Analyze and interpret complex digital data to assist in decision-making",
      ["Building ML models", "Data cleaning", "Statistical analysis", "Team collaboration"],
      ["Google", "Amazon", "Microsoft", "Netflix", "Uber"]),
    Career(2, "Software Engineer", "Technology",
      ["Programming", "Algorithms", "System Design", "Testing", "Debugging",
       "Java", "Python", "JavaScript", "Cloud Computing", "DevOps"],
      ["INTJ", "ISTJ", "ENTJ", "ESTJ", "INTP"],
      "Bachelor's in Computer Science", "Entry to Senior",
      SalaryRange(70000, 200000, 110000), 22, 98, true, "Medium",
      "Design, develop, and maintain software applications and systems",
      ["Coding", "Code reviews", "System design", "Bug fixing"],
      ["All major tech companies", "Startups", "Finance sector"]),
    Career(3, "UX/UI Designer", "Design",
      ["User Research", "Wireframing", "Prototyping", "UI Design", "User Testing",
       "Figma", "Adobe XD", "User Psychology", "Interaction Design"],
      ["ENFP", "INFJ", "INFP", "ENFJ", "ISFP"],
      "Bachelor's in Design or related field", "Entry to Senior",
      SalaryRange(60000, 130000, 85000), 18, 88, true, "Medium",
      "Create user-centered designs for digital products and services",
      ["User research", "Creating prototypes", "Design iterations", "Team collaboration"],
      ["Tech companies", "Design agencies", "E-commerce"]),
    Career(4, "Product Manager", "Business",
      ["Product Strategy", "Market Research", "Agile Methodology", "Stakeholder Management",
       "Data Analysis", "Roadmapping", "User Stories", "Prioritization"],
      ["ENTJ", "ENFJ", "ESTJ", "ENTP", "INTJ"],
      "Bachelor's in Business or related field, often MBA", "Mid to Senior",
      SalaryRange(80000, 180000, 125000), 20, 92, true, "High",
      "Lead product development from conception to launch",
      ["Strategy meetings", "User research", "Team coordination", "Data analysis"],
      ["Tech companies", "Startups", "Large enterprises"]),
    Career(5, "Digital Marketing Specialist", "Marketing",
      ["SEO", "Content Marketing", "Social Media", "Google Analytics", "Email Marketing",
       "PPC Advertising", "Conversion Optimization", "Marketing Automation"],
      ["ESFP", "ENFP", "ESTP", "ENTP", "ENFJ"],
      "Bachelor's in Marketing or related field", "Entry to Mid",
      SalaryRange(45000, 90000, 65000), 15, 85, true, "Medium",
      "Develop and implement digital marketing strategies",
      ["Campaign management", "Content creation", "Data analysis", "Strategy planning"],
      ["Marketing agencies", "E-commerce", "All industries"])
  ]

  const PersonalityMapping: map<string, TraitVector> := map[
    "INTJ" := TraitVector(0.9, 0.7, 0.3, 0.8),
    "INTP" := TraitVector(0.9, 0.8, 0.2, 0.6),
    "ENTJ" := TraitVector(0.8, 0.6, 0.8, 0.9),
    "ENTP" := TraitVector(0.7, 0.9, 0.7, 0.6),
    "INFJ" := TraitVector(0.7, 0.8, 0.8, 0.5),
    "INFP" := TraitVector(0.6, 0.9, 0.7, 0.4),
    "ENFJ" := TraitVector(0.6, 0.7, 0.9, 0.7),
    "ENFP" := TraitVector(0.5, 0.9, 0.8, 0.5),
    "ISTJ" := TraitVector(0.8, 0.4, 0.3, 0.9),
    "ISFJ" := TraitVector(0.6, 0.5, 0.7, 0.8),
    "ESTJ" := TraitVector(0.7, 0.4, 0.6, 0.9),
    "ESFJ" := TraitVector(0.5, 0.5, 0.9, 0.8),
    "ISTP" := TraitVector(0.8, 0.6, 0.3, 0.9),
    "ISFP" := TraitVector(0.5, 0.8, 0.6, 0.7),
    "ESTP" := TraitVector(0.6, 0.5, 0.8, 0.9),
    "ESFP" := TraitVector(0.4, 0.7, 0.9, 0.8)
  ]

  const IndustryTrends: map<string, Trend> := map[
    "Technology" := Trend(25, 85, 8),
    "Healthcare" := Trend(18, 30, 6),
    "Finance" := Trend(12, 60, 7),
    "Marketing" := Trend(15, 75, 5),
    "Design" := Trend(20, 80, 7),
    "Business" := Trend(16, 65, 6)
  ]

  /** The trend used for a category the table does not list. */
  const DefaultTrend := Trend(10, 50, 3)

  const CourseMapping: map<string, seq<string>> := map[
    "Python" := ["Python for Everybody (Coursera)", "Automate the Boring Stuff with Python"],
    "Machine Learning" := ["Machine Learning by Andrew Ng", "Fast.ai Practical Deep Learning"],
    "Data Analysis" := ["Google Data Analytics Professional Certificate"],
    "SQL" := ["SQL for Data Science", "The Complete SQL Bootcamp"],
    "JavaScript" := ["JavaScript: The Complete Guide", "The Modern JavaScript Tutorial"],
    "UX Design" := ["Google UX Design Professional Certificate", "Interaction Design Foundation"],
    "Product Management" := ["Product Management Certified", "Agile Methodology Fundamentals"]
  ]

  const Default := Engine(CareerDatabase, PersonalityMapping, IndustryTrends, CourseMapping)

  // ---------------------------------------------------------------- personality

  function Sum(xs: seq<real>): real {
    if xs == [] then 0.0 else Sum(xs[..|xs| - 1]) + xs[|xs| - 1]
  }

  /** The similarities of the user's vector with those of the career's accepted codes
      that the table knows, in the career's order. */
  function Similarities(engine: Engine, user: TraitVector, careerTraits: seq<string>, cosine: Cosine): (sims: seq<real>)
    ensures |sims| <= |careerTraits|
  {
    if careerTraits == [] then []
    else
      var code := careerTraits[|careerTraits| - 1];
      Similarities(engine, user, careerTraits[..|careerTraits| - 1], cosine)
      + (if code in engine.personalityMapping then [cosine(user, engine.personalityMapping[code])] else [])
  }

  /** The personality sub-score: 0.5 for an absent or unknown user code and for a career
      none of whose codes is known, otherwise the mean similarity. */
  function PersonalityScore(engine: Engine, userType: string, careerTraits: seq<string>, cosine: Cosine): real {
    if userType == "" || userType !in engine.personalityMapping then 0.5
    else
      var sims := Similarities(engine, engine.personalityMapping[userType], careerTraits, cosine);
      if sims == [] then 0.5 else Sum(sims) / |sims| as real
  }

  method CalculatePersonalityCompatibility(engine: Engine, userType: string, careerTraits: seq<string>, cosine: Cosine)
    returns (score: real)
    ensures score == PersonalityScore(engine, userType, careerTraits, cosine)
    ensures userType == "" || userType !in engine.personalityMapping ==> score == 0.5
  {
    if userType == "" || userType !in engine.personalityMapping {
      return 0.5;
    }
    var userProfile := engine.personalityMapping[userType];
    var compatibilities: seq<real> := [];
    for i := 0 to |careerTraits|
      invariant compatibilities == Similarities(engine, userProfile, careerTraits[..i], cosine)
    {
      var code := careerTraits[i];
      assert careerTraits[..i + 1][..i] == careerTraits[..i];
      if code in engine.personalityMapping {
        var similarity := cosine(userProfile, engine.personalityMapping[code]);
        compatibilities := compatibilities + [similarity];
      }
    }
    assert careerTraits[..|careerTraits|] == careerTraits;
    score := if compatibilities != [] then Sum(compatibilities) / |compatibilities| as real else 0.5;
  }

  lemma {:induction false} SumBounds(xs: seq<real>)
    requires forall i :: 0 <= i < |xs| ==> 0.0 <= xs[i] <= 1.0
    ensures 0.0 <= Sum(xs) <= |xs| as real
  {
    if xs != [] {
      SumBounds(xs[..|xs| - 1]);
    }
  }

  lemma {:induction false} SimilaritiesBounded(engine: Engine, user: TraitVector, careerTraits: seq<string>, cosine: Cosine)
    requires forall u, v :: 0.0 <= cosine(u, v) <= 1.0
    ensures forall i :: 0 <= i < |Similarities(engine, user, careerTraits, cosine)| ==>
      0.0 <= Similarities(engine, user, careerTraits, cosine)[i] <= 1.0
  {
    if careerTraits != [] {
      SimilaritiesBounded(engine, user, careerTraits[..|careerTraits| - 1], cosine);
    }
  }

  /** With a similarity measure in [0, 1] (as cosine similarity of non-negative vectors
      is), the personality sub-score is in [0, 1]. */
  lemma PersonalityScoreBounds(engine: Engine, userType: string, careerTraits: seq<string>, cosine: Cosine)
    requires forall u, v :: 0.0 <= cosine(u, v) <= 1.0
    ensures 0.0 <= PersonalityScore(engine, userType, careerTraits, cosine) <= 1.0
  {
    if userType != "" && userType in engine.personalityMapping {
      var sims := Similarities(engine, engine.personalityMapping[userType], careerTraits, cosine);
      if sims != [] {
        SimilaritiesBounded(engine, engine.personalityMapping[userType], careerTraits, cosine);
        SumBounds(sims);
        RatioBounds(Sum(sims), |sims| as real);
      }
    }
  }

  lemma RatioBounds(x: real, n: real)
    requires 0.0 < n && 0.0 <= x <= n
    ensures 0.0 <= x / n <= 1.0
  {
    assert x / n * n == x;
  }

  // ---------------------------------------------------------------- skills

  /** `[skill.lower() for skill in required_skills]` */
  function LowerAll(skills: seq<string>): (r: seq<string>)
    ensures |r| == |skills|
  {
    seq(|skills|, k requires 0 <= k < |skills| => Lower(skills[k]))
  }

  function ToSet(s: seq<string>): set<string> {
    set x | x in s
  }

  /** `user_skill in req_skill or req_skill in user_skill` */
  predicate Related(userSkill: string, reqSkill: string) {
    IsSubstring(userSkill, reqSkill) || IsSubstring(reqSkill, userSkill)
  }

  /** Some user entry from position `j` on is related to `reqSkill`. */
  predicate RelatedFrom(userList: seq<string>, reqSkill: string, j: nat)
    decreases |userList| - j
  {
    j < |userList| && (Related(userList[j], reqSkill) || RelatedFrom(userList, reqSkill, j + 1))
  }

  /** `any(user_skill in req_skill or req_skill in user_skill for user_skill in ...)` */
  predicate PartiallyMatched(userList: seq<string>, reqSkill: string) {
    RelatedFrom(userList, reqSkill, 0)
  }

  /** How many of the first `i` required skills (counted with repetition) some user
      entry partially matches. */
  function PartialCountUpTo(userList: seq<string>, reqList: seq<string>, i: nat): (n: nat)
    requires i <= |reqList|
    ensures n <= i
  {
    if i == 0 then 0
    else
      PartialCountUpTo(userList, reqList, i - 1)
      + (if PartiallyMatched(userList, reqList[i - 1]) then 1 else 0)
  }

  /** How many required skills (counted with repetition) some user entry partially matches. */
  function PartialCount(userList: seq<string>, reqList: seq<string>): (n: nat)
    ensures n <= |reqList|
  {
    PartialCountUpTo(userList, reqList, |reqList|)
  }

  /** `len(set(user_skill_list) & set(required_skill_list))` */
  function ExactCount(userList: seq<string>, reqList: seq<string>): nat {
    |ToSet(userList) * ToSet(reqList)|
  }

  /** The skill sub-score: 0.3 when either side is empty, otherwise
      0.7 * exact fraction + 0.3 * partial fraction of the lower-cased required skills. */
  function SkillMatchScore(userSkills: string, requiredSkills: seq<string>): (r: real)
    ensures userSkills == [] || requiredSkills == [] ==> r == 0.3
  {
    if userSkills == [] || requiredSkills == [] then 0.3
    else
      var userList := NormalizeSkills(userSkills);
      var reqList := LowerAll(requiredSkills);
      Fraction(ExactCount(userList, reqList), |reqList|) * 0.7
      + Fraction(PartialCount(userList, reqList), |reqList|) * 0.3
  }

  method CalculateSkillMatch(userSkills: string, requiredSkills: seq<string>) returns (score: real)
    ensures score == SkillMatchScore(userSkills, requiredSkills)
  {
    if userSkills == [] || requiredSkills == [] {
      return 0.3;
    }
    var userSkillList := NormalizeSkills(userSkills);
    var requiredSkillList := LowerAll(requiredSkills);
    // The source tests both lists for emptiness once more here; that test never fires,
    // since splitting yields at least one entry and the required list is non-empty.
    var exactMatches := ExactCount(userSkillList, requiredSkillList);
    var exactScore := Fraction(exactMatches, |requiredSkillList|);
    var partialMatches := 0;
    for i := 0 to |requiredSkillList|
      invariant partialMatches == PartialCountUpTo(userSkillList, requiredSkillList, i)
    {
      var reqSkill := requiredSkillList[i];
      for j := 0 to |userSkillList|
        invariant partialMatches == PartialCountUpTo(userSkillList, requiredSkillList, i)
        invariant PartiallyMatched(userSkillList, reqSkill) == RelatedFrom(userSkillList, reqSkill, j)
      {
        var userSkill := userSkillList[j];
        if IsSubstring(userSkill, reqSkill) || IsSubstring(reqSkill, userSkill) {
          partialMatches := partialMatches + 1;
          break;
        }
      }
    }
    var partialScore := Fraction(partialMatches, |requiredSkillList|);
    score := exactScore * 0.7 + partialScore * 0.3;
  }

  lemma SubsetCard(a: set<string>, b: set<string>)
    requires a <= b
    ensures |a| <= |b|
  {
    assert b == a + (b - a);
  }

  /** The distinct required skills that some user entry partially matches. */
  ghost function MatchedSet(userList: seq<string>, reqList: seq<string>): set<string> {
    set x | x in reqList && PartiallyMatched(userList, x)
  }

  lemma {:induction false} MatchedSetBound(userList: seq<string>, reqList: seq<string>, i: nat)
    requires i <= |reqList|
    ensures |MatchedSet(userList, reqList[..i])| <= PartialCountUpTo(userList, reqList, i)
  {
    if i > 0 {
      var init := reqList[..i - 1];
      var last := reqList[i - 1];
      MatchedSetBound(userList, reqList, i - 1);
      assert reqList[..i] == init + [last];
      if PartiallyMatched(userList, last) {
        assert MatchedSet(userList, reqList[..i]) == MatchedSet(userList, init) + {last};
      } else {
        assert MatchedSet(userList, reqList[..i]) == MatchedSet(userList, init);
      }
    }
  }

  /** A related entry at or after position `j` makes `RelatedFrom` hold at `j`. */
  lemma {:induction false} RelatedWitness(userList: seq<string>, reqSkill: string, j: nat, k: nat)
    requires j <= k < |userList| && Related(userList[k], reqSkill)
    ensures RelatedFrom(userList, reqSkill, j)
    decreases k - j
  {
    if j < k {
      RelatedWitness(userList, reqSkill, j + 1, k);
    }
  }

  /** The recursive test agrees with "some user entry is related to the skill". */
  lemma {:induction false} PartiallyMatchedIff(userList: seq<string>, reqSkill: string)
    ensures PartiallyMatched(userList, reqSkill) <==> exists u :: u in userList && Related(u, reqSkill)
  {
    if exists u :: u in userList && Related(u, reqSkill) {
      var u :| u in userList && Related(u, reqSkill);
      var k :| 0 <= k < |userList| && userList[k] == u;
      RelatedWitness(userList, reqSkill, 0, k);
    } else {
      RelatedFromNone(userList, reqSkill, 0);
    }
  }

  lemma {:induction false} RelatedFromNone(userList: seq<string>, reqSkill: string, j: nat)
    requires forall u :: u in userList ==> !Related(u, reqSkill)
    ensures !RelatedFrom(userList, reqSkill, j)
    decreases |userList| - j
  {
    if j < |userList| {
      assert userList[j] in userList;
      RelatedFromNone(userList, reqSkill, j + 1);
    }
  }

  /** Every exact match is also a partial match, and each required skill is counted at
      most once by the partial count, so the exact count never exceeds it. */
  lemma ExactAtMostPartial(userList: seq<string>, reqList: seq<string>)
    ensures ExactCount(userList, reqList) <= PartialCount(userList, reqList) <= |reqList|
  {
    forall x | x in ToSet(userList) * ToSet(reqList) ensures x in MatchedSet(userList, reqList) {
      assert x in userList && Related(x, x);
      PartiallyMatchedIff(userList, x);
    }
    SubsetCard(ToSet(userList) * ToSet(reqList), MatchedSet(userList, reqList));
    MatchedSetBound(userList, reqList, |reqList|);
    assert reqList[..|reqList|] == reqList;
  }

  /** The skill sub-score is in [0, 1]. */
  lemma SkillMatchBounds(userSkills: string, requiredSkills: seq<string>)
    ensures 0.0 <= SkillMatchScore(userSkills, requiredSkills) <= 1.0
  {
    if userSkills != [] && requiredSkills != [] {
      var userList := NormalizeSkills(userSkills);
      var reqList := LowerAll(requiredSkills);
      ExactAtMostPartial(userList, reqList);
    }
  }

  lemma {:induction false} EmptyEntryMatchesAll(userList: seq<string>, reqList: seq<string>, i: nat)
    requires [] in userList && i <= |reqList|
    ensures PartialCountUpTo(userList, reqList, i) == i
  {
    if i > 0 {
      assert Related([], reqList[i - 1]);
      PartiallyMatchedIff(userList, reqList[i - 1]);
      EmptyEntryMatchesAll(userList, reqList, i - 1);
    }
  }

  /** A skill text with an empty entry (a trailing comma, say) makes the partial
      fraction 1, so the score is 0.7 * exact fraction + 0.3. */
  lemma SkillMatchWithEmptyEntry(userSkills: string, requiredSkills: seq<string>)
    requires userSkills != [] && requiredSkills != []
    requires [] in NormalizeSkills(userSkills)
    ensures SkillMatchScore(userSkills, requiredSkills)
         == Fraction(ExactCount(NormalizeSkills(userSkills), LowerAll(requiredSkills)), |requiredSkills|) * 0.7 + 0.3
  {
    EmptyEntryMatchesAll(NormalizeSkills(userSkills), LowerAll(requiredSkills), |requiredSkills|);
  }

  // ---------------------------------------------------------------- education

  /** `education_levels.get(user_education, 1)` */
  function EducationLevel(education: string): (level: real)
    ensures 1.0 <= level <= 4.0
  {
    if education == "high_school" then 1.0
    else if education == "undergraduate" then 2.0
    else if education == "graduate" then 3.0
    else if education == "phd" then 4.0
    else if education == "working" then 2.5
    else 1.0
  }

  /** The level a career asks for, from its free-text requirement. */
  function RequiredLevel(requirement: string): (level: real)
    ensures level == 1.0 || level == 2.0 || level == 3.0
  {
    if IsSubstring("Bachelor", requirement) then 2.0
    else if IsSubstring("Master", requirement) then 3.0
    else 1.0
  }

  function CompatibilityAt(userLevel: real, reqLevel: real): real {
    if userLevel >= reqLevel then 1.0
    else if userLevel >= reqLevel - 1.0 then 0.7
    else 0.3
  }

  /** The education sub-score: full marks at or above the required level, 0.7 one
      level below, 0.3 further below. */
  function EducationCompatibility(userEducation: string, requiredEducation: string): (r: real)
    ensures r == 1.0 || r == 0.7 || r == 0.3
    ensures r == 1.0 <==> EducationLevel(userEducation) >= RequiredLevel(requiredEducation)
    ensures r == 0.3 <==> EducationLevel(userEducation) < RequiredLevel(requiredEducation) - 1.0
  {
    CompatibilityAt(EducationLevel(userEducation), RequiredLevel(requiredEducation))
  }

  /** A higher education level never lowers the education sub-score. */
  lemma EducationMonotone(lower: string, higher: string, requiredEducation: string)
    requires EducationLevel(lower) <= EducationLevel(higher)
    ensures EducationCompatibility(lower, requiredEducation) <= EducationCompatibility(higher, requiredEducation)
  {
  }

  /** An education value the table does not know counts like "high_school". */
  lemma UnknownEducation(education: string, requiredEducation: string)
    requires education !in {"high_school", "undergraduate", "graduate", "phd", "working"}
    ensures EducationCompatibility(education, requiredEducation)
         == EducationCompatibility("high_school", requiredEducation)
  {
  }

  // ---------------------------------------------------------------- market

  /** `industry_trends.get(industry, default)` */
  function TrendFor(engine: Engine, category: string): (t: Trend)
    ensures category !in engine.industryTrends ==> t.salaryGrowth == 3
  {
    if category in engine.industryTrends then engine.industryTrends[category] else DefaultTrend
  }

  /** The market sub-score: job growth over 30 weighted 0.4, the category's salary
      growth over 10 weighted 0.3, and the remote preference (default 0.5) weighted 0.3
      when the career is remote-friendly. Not clamped. */
  function MarketFactor(engine: Engine, career: Career, remoteWork: Option<real>): real {
    var trends := TrendFor(engine, career.category);
    var growthFactor := career.jobGrowth as real / 30.0;
    var remotePreference := remoteWork.GetOr(0.5);
    var remoteScore := (if career.remoteFriendly then remotePreference else 0.0) * 0.3;
    var salaryGrowth := trends.salaryGrowth as real / 10.0;
    growthFactor * 0.4 + salaryGrowth * 0.3 + remoteScore
  }

  /** Every salary growth the trend table lists is between 0 and 10. */
  ghost predicate SalaryGrowthInRange(engine: Engine) {
    forall c :: c in engine.industryTrends ==> 0 <= engine.industryTrends[c].salaryGrowth <= 10
  }

  lemma DefaultSalaryGrowthInRange()
    ensures SalaryGrowthInRange(Default)
  {
  }

  /** Growth of at most 30, salary growth in [0, 10] and a preference in [0, 1] keep the
      market sub-score in [0, 1]. */
  lemma MarketFactorBounds(engine: Engine, career: Career, remoteWork: Option<real>)
    requires SalaryGrowthInRange(engine)
    requires 0 <= career.jobGrowth <= 30
    requires remoteWork.Some? ==> 0.0 <= remoteWork.value <= 1.0
    ensures 0.0 <= MarketFactor(engine, career, remoteWork) <= 1.0
  {
    var t := TrendFor(engine, career.category);
    assert 0 <= t.salaryGrowth <= 10;
  }

  /** The score is not clamped: with the shipped tables, a fast-growing remote Technology
      career with the full remote preference scores above 1. */
  lemma MarketFactorUnclamped(career: Career)
    requires career.category == "Technology" && career.remoteFriendly
    requires career.jobGrowth >= 35
    ensures MarketFactor(Default, career, Some(1.0)) > 1.0
  {
    assert TrendFor(Default, career.category).salaryGrowth == 8;
  }

  /** An unknown category uses salary growth 3; a missing remote preference counts 0.5. */
  lemma MarketFactorDefaults(engine: Engine, career: Career)
    requires career.category !in engine.industryTrends
    ensures MarketFactor(engine, career, None)
         == career.jobGrowth as real / 30.0 * 0.4 + 0.09
            + (if career.remoteFriendly then 0.15 else 0.0)
  {
  }

  // ---------------------------------------------------------------- learning path

  /** The career skills among its first five that no user entry covers, in order. */
  function PrioritySkills(career: Career, userList: seq<string>): (r: seq<string>)
    ensures |r| <= 5
    ensures forall s :: s in r ==> s in career.skills && !Covered(userList, s)
  {
    assert forall s :: s in Take(career.skills, 5) ==> s in career.skills;
    Uncovered(userList, Take(career.skills, 5))
  }

  /** For each skill the course table lists, its first course. */
  function CoursesFor(engine: Engine, skills: seq<string>): (courses: seq<string>)
    ensures |courses| <= |skills|
  {
    if skills == [] then []
    else
      var init := skills[..|skills| - 1];
      var skill := skills[|skills| - 1];
      CoursesFor(engine, init) + (if skill in engine.courseMapping then Take(engine.courseMapping[skill], 1) else [])
  }

  lemma CoursesForSnoc(engine: Engine, skills: seq<string>, i: nat)
    requires i < |skills|
    ensures CoursesFor(engine, skills[..i + 1]) == CoursesFor(engine, skills[..i])
      + (if skills[i] in engine.courseMapping then Take(engine.courseMapping[skills[i]], 1) else [])
  {
    assert skills[..i + 1][..i] == skills[..i];
  }

  /** Every recommended course is the first course the table lists for one of the skills. */
  lemma {:induction false} CoursesForFacts(engine: Engine, skills: seq<string>)
    ensures forall c :: c in CoursesFor(engine, skills) ==>
      exists s :: s in skills && s in engine.courseMapping && engine.courseMapping[s] != [] && c == engine.courseMapping[s][0]
  {
    if skills != [] {
      var init := skills[..|skills| - 1];
      CoursesForFacts(engine, init);
      assert forall s :: s in init ==> s in skills;
    }
  }

  function Resources(title: string): seq<string> {
    [title + " Career Guide", "Industry networking events", "Professional certification programs"]
  }

  function LearningPathFor(engine: Engine, career: Career, userList: seq<string>): LearningPath {
    var priority := PrioritySkills(career, userList);
    LearningPath(priority, CoursesFor(engine, Take(priority, 3)), "3-6 months", Resources(career.title))
  }

  method GenerateLearningPath(engine: Engine, career: Career, userSkills: seq<string>) returns (path: LearningPath)
    ensures path == LearningPathFor(engine, career, userSkills)
  {
    var prioritySkills: seq<string> := [];
    var topSkills := Take(career.skills, 5);
    for i := 0 to |topSkills|
      invariant prioritySkills == Uncovered(userSkills, topSkills[..i])
    {
      var skill := topSkills[i];
      UncoveredSnoc(userSkills, topSkills, i);
      if !Covered(userSkills, skill) {
        prioritySkills := prioritySkills + [skill];
      }
    }
    assert topSkills[..|topSkills|] == topSkills;
    var recommendedCourses: seq<string> := [];
    var firstPriorities := Take(prioritySkills, 3);
    for i := 0 to |firstPriorities|
      invariant recommendedCourses == CoursesFor(engine, firstPriorities[..i])
    {
      var skill := firstPriorities[i];
      CoursesForSnoc(engine, firstPriorities, i);
      if skill in engine.courseMapping {
        recommendedCourses := recommendedCourses + Take(engine.courseMapping[skill], 1);
      }
    }
    assert firstPriorities[..|firstPriorities|] == firstPriorities;
    path := LearningPath(prioritySkills, recommendedCourses, "3-6 months", Resources(career.title));
  }

  /** The learning path: priority skills are exactly the uncovered ones among the first
      five career skills, in order; at most three courses, each the first listed for a priority skill;
      three resources, the first the career's guide; a fixed timeline. */
  lemma LearningPathFacts(engine: Engine, career: Career, userList: seq<string>)
    ensures var path := LearningPathFor(engine, career, userList);
      && IsSubsequence(path.prioritySkills, Take(career.skills, 5))
      && (forall s :: s in path.prioritySkills ==> !Covered(userList, s))
      && (forall s :: s in Take(career.skills, 5) && !Covered(userList, s) ==> s in path.prioritySkills)
      && |path.recommendedCourses| <= 3
      && (forall c :: c in path.recommendedCourses ==>
            exists s :: s in path.prioritySkills && s in engine.courseMapping && engine.courseMapping[s] != []
                 && c == engine.courseMapping[s][0])
      && |path.resources| == 3 && path.resources[0] == career.title + " Career Guide"
      && path.timelineEstimate == "3-6 months"
  {
    var priority := PrioritySkills(career, userList);
    UncoveredIsSubsequence(userList, Take(career.skills, 5));
    forall s | s in Take(career.skills, 5) && !Covered(userList, s) ensures s in priority {
      UncoveredComplete(userList, Take(career.skills, 5), s);
    }
    CoursesForFacts(engine, Take(priority, 3));
    assert forall s :: s in Take(priority, 3) ==> s in priority;
  }

  // ---------------------------------------------------------------- assembly

  /** `0.25 p + 0.30 s + 0.20 e + 0.25 m`: the weights add up to 1, so sub-scores in
      [0, 1] give a total in [0, 1]. */
  function WeightedTotal(d: DetailedScores): (r: real)
    ensures (&& 0.0 <= d.personality <= 1.0 && 0.0 <= d.skills <= 1.0
             && 0.0 <= d.education <= 1.0 && 0.0 <= d.market <= 1.0) ==> 0.0 <= r <= 1.0
  {
    d.personality * 0.25 + d.skills * 0.30 + d.education * 0.20 + d.market * 0.25
  }

  /** The first five career skills no user entry covers. */
  function MissingSkills(userList: seq<string>, skills: seq<string>): (r: seq<string>)
    ensures |r| <= 5
    ensures forall s :: s in r ==> s in skills && !Covered(userList, s)
  {
    assert forall s :: s in Take(Uncovered(userList, skills), 5) ==> s in Uncovered(userList, skills);
    Take(Uncovered(userList, skills), 5)
  }

  function ScoresFor(engine: Engine, career: Career, user: UserData, cosine: Cosine): DetailedScores {
    DetailedScores(
      PersonalityScore(engine, user.personalityType, career.personalityTraits, cosine),
      SkillMatchScore(user.skills, career.skills),
      EducationCompatibility(user.educationLevel, career.educationRequired),
      MarketFactor(engine, career, user.remoteWork))
  }

  function RecommendationFor(engine: Engine, career: Career, user: UserData, cosine: Cosine): Recommendation {
    var scores := ScoresFor(engine, career, user, cosine);
    var userList := UserSkillList(user.skills);
    Recommendation(
      career.title, career.category, WeightedTotal(scores), scores, career.description,
      career.salaryRange, career.jobGrowth, career.experienceLevel,
      MissingSkills(userList, career.skills), LearningPathFor(engine, career, userList),
      career.companies, career.dayToDay, career.demandScore, career.remoteFriendly)
  }

  /** The scorer of one catalog career. */
  function Recommender(engine: Engine, user: UserData, cosine: Cosine): Career -> Recommendation {
    career => RecommendationFor(engine, career, user, cosine)
  }

  /** One recommendation per catalog career, in catalog order. */
  function AllRecommendations(engine: Engine, user: UserData, cosine: Cosine): (recs: seq<Recommendation>)
    ensures |recs| == |engine.careerDatabase|
  {
    MapPrefix(Recommender(engine, user, cosine), engine.careerDatabase, |engine.careerDatabase|)
  }

  function MatchKey(r: Recommendation): real {
    r.matchScore
  }

  /** `recommendations.sort(key=match_score, reverse=True); recommendations[:top_n]` */
  function Ranked(engine: Engine, user: UserData, topN: int, cosine: Cosine): seq<Recommendation> {
    Take(SortDesc(AllRecommendations(engine, user, cosine), MatchKey), topN)
  }

  /** A recommendation is internally consistent: its total is the weighted sum of its
      sub-scores, and its gap list and learning path are those of its career. */
  ghost predicate WellFormed(r: Recommendation, user: UserData) {
    var userList := UserSkillList(user.skills);
    && r.matchScore == WeightedTotal(r.detailedScores)
    && |r.missingSkills| <= 5
    && (forall s :: s in r.missingSkills ==> !Covered(userList, s))
    && |r.learningPath.recommendedCourses| <= 3
    && r.learningPath.prioritySkills <= r.missingSkills
  }

  /** `generate_career_recommendations(user_data, top_n=10)`: scores every catalog career in
      catalog order, sorts by total, largest first, and keeps the first `top_n`. Python's
      default argument has no Dafny counterpart, so callers pass 10 for the default. */
  method GenerateCareerRecommendations(engine: Engine, user: UserData, topN: int, cosine: Cosine)
    returns (recs: seq<Recommendation>)
    ensures recs == Ranked(engine, user, topN, cosine)
  {
    var recommendations: seq<Recommendation> := [];
    for i := 0 to |engine.careerDatabase|
      invariant recommendations == MapPrefix(Recommender(engine, user, cosine), engine.careerDatabase, i)
    {
      var career := engine.careerDatabase[i];
      var personalityScore := CalculatePersonalityCompatibility(engine, user.personalityType, career.personalityTraits, cosine);
      var skillScore := CalculateSkillMatch(user.skills, career.skills);
      var educationScore := EducationCompatibility(user.educationLevel, career.educationRequired);
      var marketScore := MarketFactor(engine, career, user.remoteWork);
      var scores := DetailedScores(personalityScore, skillScore, educationScore, marketScore);
      var totalScore := personalityScore * 0.25 + skillScore * 0.30 + educationScore * 0.20 + marketScore * 0.25;
      var userSkills := UserSkillList(user.skills);
      var missingSkills := MissingSkills(userSkills, career.skills);
      var learningPath := GenerateLearningPath(engine, career, userSkills);
      var rec := Recommendation(
        career.title, career.category, totalScore, scores,
        career.description, career.salaryRange, career.jobGrowth, career.experienceLevel,
        missingSkills, learningPath, career.companies, career.dayToDay,
        career.demandScore, career.remoteFriendly);
      AssembledRecommendation(engine, career, user, cosine, scores, learningPath);
      assert rec == RecommendationFor(engine, career, user, cosine);
      recommendations := recommendations + [rec];
    }
    recs := Take(SortDesc(recommendations, MatchKey), topN);
  }

  /** The record the loop body assembles from the sub-scores and the learning path is the
      recommendation of that career. */
  lemma AssembledRecommendation(engine: Engine, career: Career, user: UserData, cosine: Cosine, scores: DetailedScores, path: LearningPath)
    requires scores == ScoresFor(engine, career, user, cosine)
    requires path == LearningPathFor(engine, career, UserSkillList(user.skills))
    ensures RecommendationFor(engine, career, user, cosine) == Recommendation(
      career.title, career.category,
      scores.personality * 0.25 + scores.skills * 0.30 + scores.education * 0.20 + scores.market * 0.25,
      scores, career.description, career.salaryRange, career.jobGrowth, career.experienceLevel,
      MissingSkills(UserSkillList(user.skills), career.skills), path, career.companies, career.dayToDay,
      career.demandScore, career.remoteFriendly)
  {
  }

  /** The ranking is sorted by match score, largest first; it holds `min(top_n, |catalog|)`
      recommendations, each built from a different catalog entry; among equal scores the
      catalog order is kept; and no recommendation left out scores higher than one kept. */
  lemma RankedOrder(engine: Engine, user: UserData, topN: int, cosine: Cosine)
    ensures var recs := Ranked(engine, user, topN, cosine);
      var all := AllRecommendations(engine, user, cosine);
      var n := |engine.careerDatabase|;
      && SortedDesc(recs, MatchKey)
      && (topN >= 0 ==> |recs| == (if topN <= n then topN else n))
      && multiset(recs) <= multiset(all)
      && (forall k :: KeyFilter(recs, MatchKey, k) <= KeyFilter(all, MatchKey, k))
      && (forall x, y :: x in recs && y in multiset(all) - multiset(recs) ==> MatchKey(y) <= MatchKey(x))
  {
    RankedTake(AllRecommendations(engine, user, cosine), MatchKey, topN);
  }

  /** Every ranked recommendation is well formed. */
  lemma RankedWellFormed(engine: Engine, user: UserData, topN: int, cosine: Cosine)
    ensures forall r :: r in Ranked(engine, user, topN, cosine) ==> WellFormed(r, user)
  {
    var all := AllRecommendations(engine, user, cosine);
    var recs := Ranked(engine, user, topN, cosine);
    RankedTake(all, MatchKey, topN);
    forall r | r in recs ensures WellFormed(r, user) {
      assert r in multiset(all);
      var j :| 0 <= j < |all| && all[j] == r;
      MapPrefixAt(Recommender(engine, user, cosine), engine.careerDatabase, |engine.careerDatabase|, j);
      RecommendationWellFormed(engine, engine.careerDatabase[j], user, cosine);
    }
  }

  /** Prefix of a subsequence is a subsequence. */
  lemma {:induction false} SubsequencePrefix(a: seq<string>, b: seq<string>, k: nat)
    requires IsSubsequence(a, b) && k <= |a|
    ensures IsSubsequence(a[..k], b)
    decreases |a| - k
  {
    if k < |a| {
      SubsequenceShrink(a, b);
      assert a[..|a| - 1][..k] == a[..k];
      SubsequencePrefix(a[..|a| - 1], b, k);
    } else {
      assert a[..k] == a;
    }
  }

  /** The skill-gap list: an order-preserving selection of at most five career skills,
      none of which contains a user entry; with no user skills it is the first five. */
  lemma MissingSkillsFacts(userList: seq<string>, skills: seq<string>)
    ensures var m := MissingSkills(userList, skills);
      && |m| <= 5
      && IsSubsequence(m, skills)
      && (forall s :: s in m ==> !Covered(userList, s))
      && (userList == [] ==> m == Take(skills, 5))
  {
    var u := Uncovered(userList, skills);
    UncoveredIsSubsequence(userList, skills);
    SubsequencePrefix(u, skills, |Take(u, 5)|);
    assert Take(u, 5) == u[..|Take(u, 5)|];
    if userList == [] {
      UncoveredNoUserSkills(skills);
    }
  }

  /** The learning path's priority skills are a prefix of the skill-gap list. */
  lemma PriorityPrefixOfMissing(career: Career, userList: seq<string>)
    ensures PrioritySkills(career, userList) <= MissingSkills(userList, career.skills)
  {
    var top := Take(career.skills, 5);
    UncoveredOfPrefix(userList, career.skills, |top|);
    assert top == career.skills[..|top|];
  }

  lemma {:induction false} SubstringNotLonger(a: string, b: string)
    requires IsSubstring(a, b)
    ensures |a| <= |b|
    decreases |b|
  {
    if !(a <= b) {
      SubstringNotLonger(a, b[1..]);
    }
  }

  /** The gap test looks only for a user entry inside the skill, not the reverse: a user
      entry that extends the skill's name counts as a partial match for the score yet
      leaves the skill on the gap list. */
  lemma PartialMatchYetMissing(userSkill: string, skill: string)
    requires Lower(skill) <= userSkill && |Lower(skill)| < |userSkill|
    ensures PartiallyMatched([userSkill], Lower(skill))
    ensures MissingSkills([userSkill], [skill]) == [skill]
  {
    assert Related(userSkill, Lower(skill));
    if IsSubstring(userSkill, Lower(skill)) {
      SubstringNotLonger(userSkill, Lower(skill));
    }
    assert !CoveredFrom([userSkill], Lower(skill), 1);
    assert !Covered([userSkill], skill);
    assert [skill][..0] == [];
  }

  lemma RecommendationWellFormed(engine: Engine, career: Career, user: UserData, cosine: Cosine)
    ensures WellFormed(RecommendationFor(engine, career, user, cosine), user)
  {
    var userList := UserSkillList(user.skills);
    MissingSkillsFacts(userList, career.skills);
    PriorityPrefixOfMissing(career, userList);
  }

  /** The recommendations of one category, in list order. */
  function InCategory(recs: seq<Recommendation>, category: string): (r: seq<Recommendation>)
    ensures forall x :: x in r ==> x in recs && x.category == category
  {
    if recs == [] then []
    else
      var init := recs[..|recs| - 1];
      var last := recs[|recs| - 1];
      assert forall x :: x in init ==> x in recs;
      InCategory(init, category) + (if last.category == category then [last] else [])
  }

  function Categories(recs: seq<Recommendation>): set<string> {
    set r | r in recs :: r.category
  }

  /** `clusters` maps each category of `recs` to the recommendations of that category,
      in their order in `recs`, and holds no other key. */
  ghost predicate GroupedBy(clusters: map<string, seq<Recommendation>>, recs: seq<Recommendation>) {
    && clusters.Keys == Categories(recs)
    && forall c :: c in clusters ==> clusters[c] == InCategory(recs, c)
  }

  /** `analyze_career_clusters`: the top 20 recommendations grouped by category. */
  method AnalyzeCareerClusters(engine: Engine, user: UserData, cosine: Cosine)
    returns (clusters: map<string, seq<Recommendation>>)
    ensures GroupedBy(clusters, Ranked(engine, user, 20, cosine))
  {
    var recommendations := GenerateCareerRecommendations(engine, user, 20, cosine);
    clusters := GroupByCategory(recommendations);
  }

  method GroupByCategory(recommendations: seq<Recommendation>)
    returns (clusters: map<string, seq<Recommendation>>)
    ensures GroupedBy(clusters, recommendations)
  {
    clusters := map[];
    for i := 0 to |recommendations|
      invariant GroupedBy(clusters, recommendations[..i])
    {
      var rec := recommendations[i];
      var category := rec.category;
      ClusterStep(recommendations[..i], rec, clusters);
      assert recommendations[..i + 1] == recommendations[..i] + [rec];
      if category !in clusters {
        clusters := clusters[category := []];
      }
      clusters := clusters[category := clusters[category] + [rec]];
    }
    assert recommendations[..|recommendations|] == recommendations;
  }

  /** Filing one more recommendation, as the loop body does, extends the grouping of a
      prefix to the grouping of the longer prefix. */
  lemma ClusterStep(prefix: seq<Recommendation>, rec: Recommendation, clusters: map<string, seq<Recommendation>>)
    requires GroupedBy(clusters, prefix)
    ensures var started := if rec.category in clusters then clusters else clusters[rec.category := []];
      GroupedBy(started[rec.category := started[rec.category] + [rec]], prefix + [rec])
  {
    var started := if rec.category in clusters then clusters else clusters[rec.category := []];
    var next := started[rec.category := started[rec.category] + [rec]];
    CategoriesAppend(prefix, rec);
    forall c | c in next ensures next[c] == InCategory(prefix + [rec], c) {
      InCategoryAppend(prefix, rec, c);
      if c == rec.category && rec.category !in clusters {
        NoCategoryNoCluster(prefix, c);
      }
    }
  }

  lemma CategoriesAppend(recs: seq<Recommendation>, rec: Recommendation)
    ensures Categories(recs + [rec]) == Categories(recs) + {rec.category}
  {
    assert forall r :: r in recs + [rec] <==> r in recs || r == rec;
  }

  lemma InCategoryAppend(recs: seq<Recommendation>, rec: Recommendation, c: string)
    ensures InCategory(recs + [rec], c) == InCategory(recs, c) + (if rec.category == c then [rec] else [])
  {
    assert (recs + [rec])[..|recs|] == recs;
  }

  lemma NoCategoryNoCluster(recs: seq<Recommendation>, c: string)
    requires c !in Categories(recs)
    ensures InCategory(recs, c) == []
  {
  }

  /** Each recommendation lies in the cluster of its own category and in no other. */
  lemma {:induction false} ClusterMembership(recs: seq<Recommendation>, r: Recommendation, c: string)
    requires r in recs
    ensures r in InCategory(recs, c) <==> r.category == c
  {
    var init := recs[..|recs| - 1];
    if r != recs[|recs| - 1] {
      assert recs == init + [recs[|recs| - 1]];
      ClusterMembership(init, r, c);
    }
  }

  /** Within a cluster the ranking order is kept. */
  lemma {:induction false} ClusterSorted(recs: seq<Recommendation>, c: string)
    requires SortedDesc(recs, MatchKey)
    ensures SortedDesc(InCategory(recs, c), MatchKey)
  {
    if recs != [] {
      var init := recs[..|recs| - 1];
      var last := recs[|recs| - 1];
      assert SortedDesc(init, MatchKey);
      ClusterSorted(init, c);
      var r := InCategory(recs, c);
      forall i, j | 0 <= i < j < |r| ensures MatchKey(r[i]) >= MatchKey(r[j]) {
        var sub := InCategory(init, c);
        if j < |sub| {
          assert r[i] == sub[i] && r[j] == sub[j];
        } else {
          assert r[i] == sub[i] && r[i] in init;
          var k :| 0 <= k < |init| && init[k] == r[i];
          assert recs[k] == r[i];
        }
      }
    }
  }
}
