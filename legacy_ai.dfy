/** The older recommendation scorer (`CareerAIEngine` in assessments/ai_engine.py): a
    personality sub-score and a skill sub-score, combined with the career's demand score,
    ranked, and cut to the top ten. */
module LegacyAI {
  import opened Text
  import opened Skills
  import opened Ranking

  datatype Salary = Salary(min: int, max: int)

  /** One record of `load_career_data()`. */
  datatype CareerEntry = CareerEntry(
    title: string,
    skills: seq<string>,
    personalityTraits: seq<string>,
    demandScore: int,
    salaryRange: Salary,
    growthProjection: int,
    description: string)

  /** The user profile; a missing personality type or skill text is "". */
  datatype Profile = Profile(personalityType: string, skills: string)

  /** One entry of the result; scores are the unrounded fractions. */
  datatype Recommendation = Recommendation(
    career: string,
    matchScore: real,
    personalityCompatibility: real,
    skillMatch: real,
    description: string,
    salaryRange: Salary,
    growthProjection: int,
    missingSkills: seq<string>,
    demandScore: int)

  /** `load_career_data()` */
  const CareerData: seq<CareerEntry> := [
    CareerEntry("Data Scientist",
      ["Python", "Machine Learning", "Statistics", "SQL", "Data Analysis"],
      ["INTJ", "INTP", "ENTJ"], 95, Salary(80000, 150000), 25,
      "Analyze and interpret complex data to help organizations make decisions"),
    CareerEntry("Software Engineer",
      ["Programming", "Algorithms", "System Design", "Testing", "Debugging"],
      ["INTJ", "ISTJ", "ENTJ", "ESTJ"], 98, Salary(70000, 160000), 22,
      "Design, develop, and maintain software systems"),
    CareerEntry("UX Designer",
      ["User Research", "Wireframing", "Prototyping", "UI Design", "User Testing"],
      ["ENFP", "INFJ", "INFP", "ENFJ"], 90, Salary(65000, 120000), 18,
      "Create user-centered designs for digital products")
  ]

  // ---------------------------------------------------------------- personality

  /** How many of the career's codes contain the user's code as a substring. */
  function ContainingCount(code: string, traits: seq<string>): (n: nat)
    ensures n <= |traits|
  {
    if traits == [] then 0
    else
      ContainingCount(code, traits[..|traits| - 1])
      + (if IsSubstring(code, traits[|traits| - 1]) then 1 else 0)
  }

  /** The personality sub-score: 0.5 when either side is empty, otherwise the fraction of
      the career's codes that contain the user's code. */
  function PersonalityCompatibility(code: string, traits: seq<string>): (r: real)
    ensures code == "" || traits == [] ==> r == 0.5
  {
    if code == "" || traits == [] then 0.5
    else Fraction(ContainingCount(code, traits), |traits|)
  }

  lemma RatioProduct(r: real, x: real, n: real)
    requires n != 0.0 && r == x / n
    ensures r * n == x
  {
  }

  /** The personality sub-score is in [0, 1]. */
  lemma PersonalityCompatibilityBounds(code: string, traits: seq<string>)
    ensures 0.0 <= PersonalityCompatibility(code, traits) <= 1.0
  {
  }

  /** The score is 1 exactly when every code of the career contains the user's code. */
  lemma {:induction false} ContainingCountAll(code: string, traits: seq<string>)
    ensures ContainingCount(code, traits) == |traits|
        <==> forall i :: 0 <= i < |traits| ==> IsSubstring(code, traits[i])
  {
    if traits != [] {
      var init := traits[..|traits| - 1];
      ContainingCountAll(code, init);
      assert forall i :: 0 <= i < |init| ==> init[i] == traits[i];
    }
  }

  lemma PersonalityCompatibilityFull(code: string, traits: seq<string>)
    requires code != "" && traits != []
    ensures PersonalityCompatibility(code, traits) == 1.0
        <==> forall i :: 0 <= i < |traits| ==> IsSubstring(code, traits[i])
  {
    ContainingCountAll(code, traits);
  }

  /** A career that lists the user's own code gets a positive personality sub-score. */
  lemma {:induction false} ListedCodeCounts(code: string, traits: seq<string>)
    requires code in traits
    ensures ContainingCount(code, traits) >= 1
  {
    var init := traits[..|traits| - 1];
    if traits[|traits| - 1] == code {
      SubstringRefl(code);
    } else {
      assert code in init by {
        assert traits == init + [traits[|traits| - 1]];
      }
      ListedCodeCounts(code, init);
    }
  }

  lemma ListedCodePositive(code: string, traits: seq<string>)
    requires code != "" && code in traits
    ensures PersonalityCompatibility(code, traits) > 0.0
  {
    ListedCodeCounts(code, traits);
  }

  // ---------------------------------------------------------------- skills

  /** The skill sub-score: 0 when either side is empty, otherwise the fraction of the
      required skills whose lower-cased name contains some user entry. */
  function SkillMatch(userSkills: string, requiredSkills: seq<string>): (r: real)
    ensures userSkills == [] || requiredSkills == [] ==> r == 0.0
  {
    if userSkills == [] || requiredSkills == [] then 0.0
    else Fraction(CoveredCount(NormalizeSkills(userSkills), requiredSkills), |requiredSkills|)
  }

  /** The skill sub-score is in [0, 1]. */
  lemma SkillMatchBounds(userSkills: string, requiredSkills: seq<string>)
    ensures 0.0 <= SkillMatch(userSkills, requiredSkills) <= 1.0
  {
  }

  /** The gap list is untruncated: every required skill is either matched or missing, so
      `len(missing_skills) + skill_score * len(skills) == len(skills)`. */
  lemma GapComplementsMatch(userSkills: string, requiredSkills: seq<string>)
    ensures |MissingSkills(userSkills, requiredSkills)| as real
          + SkillMatch(userSkills, requiredSkills) * |requiredSkills| as real
         == |requiredSkills| as real
  {
    if userSkills == [] {
      UncoveredNoUserSkills(requiredSkills);
    } else if requiredSkills != [] {
      MatchedTimesCount(userSkills, requiredSkills);
    }
  }

  /** With skills on both sides, the skill sub-score times the number of required skills
      is the number of required skills that are not gaps. */
  lemma MatchedTimesCount(userSkills: string, requiredSkills: seq<string>)
    requires userSkills != [] && requiredSkills != []
    ensures SkillMatch(userSkills, requiredSkills) * |requiredSkills| as real
         == (|requiredSkills| - |MissingSkills(userSkills, requiredSkills)|) as real
  {
    var userList := NormalizeSkills(userSkills);
    CoveredPlusUncovered(userList, requiredSkills);
    RatioProduct(SkillMatch(userSkills, requiredSkills),
      CoveredCount(userList, requiredSkills) as real, |requiredSkills| as real);
  }

  // ---------------------------------------------------------------- assembly

  /** `[skill for skill in career['skills'] if not any(user_skill in skill.lower() ...)]` */
  function MissingSkills(userSkills: string, skills: seq<string>): (r: seq<string>)
    ensures |r| <= |skills|
    ensures forall s :: s in r ==> s in skills && !Covered(UserSkillList(userSkills), s)
  {
    Uncovered(UserSkillList(userSkills), skills)
  }

  /** `0.4 p + 0.4 s + 0.2 * demand / 100`: sub-scores in [0, 1] and a demand score in
      [0, 100] give a total in [0, 1]. */
  function TotalScore(personality: real, skill: real, demandScore: int): (r: real)
    ensures (0.0 <= personality <= 1.0 && 0.0 <= skill <= 1.0 && 0 <= demandScore <= 100)
         ==> 0.0 <= r <= 1.0
  {
    personality * 0.4 + skill * 0.4 + demandScore as real / 100.0 * 0.2
  }

  function RecommendationFor(career: CareerEntry, user: Profile): Recommendation {
    var p := PersonalityCompatibility(user.personalityType, career.personalityTraits);
    var s := SkillMatch(user.skills, career.skills);
    Recommendation(
      career.title, TotalScore(p, s, career.demandScore), p, s, career.description,
      career.salaryRange, career.growthProjection, MissingSkills(user.skills, career.skills),
      career.demandScore)
  }

  function Recommender(user: Profile): CareerEntry -> Recommendation {
    career => RecommendationFor(career, user)
  }

  function MatchKey(r: Recommendation): real {
    r.matchScore
  }

  /** `recommendations.sort(key=match_score, reverse=True); recommendations[:10]` */
  function Ranked(careerData: seq<CareerEntry>, user: Profile): seq<Recommendation> {
    Take(SortDesc(MapPrefix(Recommender(user), careerData, |careerData|), MatchKey), 10)
  }

  method GenerateRecommendations(careerData: seq<CareerEntry>, user: Profile)
    returns (recs: seq<Recommendation>)
    ensures recs == Ranked(careerData, user)
  {
    var recommendations: seq<Recommendation> := [];
    for i := 0 to |careerData|
      invariant recommendations == MapPrefix(Recommender(user), careerData, i)
    {
      var career := careerData[i];
      var personalityScore := PersonalityCompatibility(user.personalityType, career.personalityTraits);
      var skillScore := SkillMatch(user.skills, career.skills);
      var totalScore := personalityScore * 0.4 + skillScore * 0.4 + career.demandScore as real / 100.0 * 0.2;
      var missingSkills := MissingSkills(user.skills, career.skills);
      var rec := Recommendation(
        career.title, totalScore, personalityScore, skillScore, career.description,
        career.salaryRange, career.growthProjection, missingSkills, career.demandScore);
      assert rec == RecommendationFor(career, user);
      recommendations := recommendations + [rec];
    }
    recs := Take(SortDesc(recommendations, MatchKey), 10);
  }

  /** The result is sorted by match score, largest first; it holds `min(10, |data|)`
      recommendations, each built from a different career; among equal scores the
      catalog order is kept; no recommendation left out scores higher than one kept; and
      each is the recommendation of a catalog career. */
  lemma RankedFacts(careerData: seq<CareerEntry>, user: Profile)
    ensures var recs := Ranked(careerData, user);
      var all := MapPrefix(Recommender(user), careerData, |careerData|);
      && SortedDesc(recs, MatchKey)
      && |recs| == (if |careerData| <= 10 then |careerData| else 10)
      && multiset(recs) <= multiset(all)
      && (forall k :: KeyFilter(recs, MatchKey, k) <= KeyFilter(all, MatchKey, k))
      && (forall x, y :: x in recs && y in multiset(all) - multiset(recs) ==> MatchKey(y) <= MatchKey(x))
      && (forall r :: r in recs ==> exists c :: c in careerData && r == RecommendationFor(c, user))
  {
    var all := MapPrefix(Recommender(user), careerData, |careerData|);
    var recs := Ranked(careerData, user);
    RankedTake(all, MatchKey, 10);
    forall r | r in recs ensures exists c :: c in careerData && r == RecommendationFor(c, user) {
      assert r in multiset(all);
      var j :| 0 <= j < |all| && all[j] == r;
      MapPrefixAt(Recommender(user), careerData, |careerData|, j);
      assert careerData[j] in careerData;
    }
  }

  /** Without a personality type or skills every career scores 0.2 + 0.2 * demand / 100,
      so the ranking follows the demand score. */
  lemma EmptyProfileRanksByDemand(career: CareerEntry)
    ensures RecommendationFor(career, Profile("", "")).matchScore
         == 0.2 + career.demandScore as real / 100.0 * 0.2
  {
  }
}
