# Career guidance scoring, modelled in Dafny

This project models the scoring core of a Django career-guidance platform. Three pieces
are modelled:

- **Advanced scorer** (`AdvancedCareerAI`, `recommendations/ai_engine.py`). Every career of
  a fixed catalog gets four sub-scores: personality, skills, education and market. They are
  combined with the weights 0.25 / 0.30 / 0.20 / 0.25. Each result also carries a skill-gap
  list (at most five skills) and a learning path: priority skills, at most three courses,
  three fixed resources and a fixed timeline. The results are ranked by total, largest
  first, and cut to `top_n`. They can also be grouped by career category.
- **Legacy scorer** (`CareerAIEngine`, `assessments/ai_engine.py`). A substring-count
  personality score and a substring skill fraction are combined with the career's demand
  score as 0.4 / 0.4 / 0.2. The results carry an untruncated gap list and are ranked and cut
  to ten.
- **Assessment tally** (`assessments/views.py`). The first helper turns weighted answer
  letters into a four-letter personality code. The second counts answer values and returns
  the five most frequent.

Modules:

- `Text` (text.dfy): what the scorers use of Python strings. `lower()` on ASCII letters,
  `strip()` on ASCII whitespace, `split(',')`, and the substring test `a in b`.
- `Ranking` (ranking.dfy): building one result per input in order, a count as a
  fraction of a total, the stable `sort(key=..., reverse=True)`, and the slice `s[:n]`.
- `Skills` (skills.dfy): the user's skill text turned into normalised entries, and the
  skill-gap filter both scorers share.
- `CareerAI` (career_ai.dfy): the advanced scorer. Its tables (catalog, personality
  vectors, industry trends, course table) are an `Engine` value; `Default` holds the
  shipped tables.
- `LegacyAI` (legacy_ai.dfy): the legacy scorer.
- `AssessmentTally` (tally.dfy): the two assessment helpers.
- `Wrappers` (wrappers.dfy): `Option`.

Where the source works by updating state in a loop (appending to a list, counting into a
dictionary, a counter with `break`), the model is a method with that loop. The method is
proved equal to a specification function. The promised properties are lemmas about that
function.

## Model

| member | source | states |
|---|---|---|
| Text.Split | recommendations/ai_engine.py:173 | `split(',')` always yields at least one piece |
| Text.SplitPiecesNoSep | recommendations/ai_engine.py:173 | no piece of a split contains the separator |
| Text.JoinSplit | recommendations/ai_engine.py:173 | joining the pieces with the separator gives back the original text |
| Text.SplitJoin | recommendations/ai_engine.py:173 | splitting a join of separator-free pieces gives back the pieces |
| Text.StripFacts | recommendations/ai_engine.py:173 | `strip()` returns a slice of its argument with only whitespace cut away, and the result neither starts nor ends with whitespace |
| Text.StripIdempotent | recommendations/ai_engine.py:173 | stripping twice is stripping once |
| Text.Strip | recommendations/ai_engine.py:173 | `s.strip()`: leading whitespace cut, then trailing whitespace cut; never longer than `s` |
| Text.Lower | recommendations/ai_engine.py:174 | `s.lower()`: each upper-case ASCII letter replaced by its lower-case letter, other characters kept; same length |
| Text.LowerFacts | recommendations/ai_engine.py:174 | `lower()` leaves no upper-case letter and is idempotent |
| Text.IsSubstring | recommendations/ai_engine.py:187 | `a in b`: `a` is a prefix of `b` or of some suffix of `b` |
| Text.IsSubstringIffOccurs | recommendations/ai_engine.py:187 | the substring test `a in b` holds exactly when `a` occurs in `b` at some offset |
| Ranking.MapPrefix | recommendations/ai_engine.py:239-301 | the append loop yields one result per catalog entry |
| Ranking.MapPrefixAt | recommendations/ai_engine.py:239-301 | the j-th result is the one built from the j-th catalog entry |
| Ranking.SortDesc | recommendations/ai_engine.py:304 | sorting keeps the length and the multiset of elements |
| Ranking.SortDescSorted | recommendations/ai_engine.py:304 | the sort result is non-increasing in the key |
| Ranking.SortDescStable | recommendations/ai_engine.py:304 | elements with equal keys keep their relative order |
| Ranking.Take | recommendations/ai_engine.py:305 | `s[:n]` is a prefix of length `min(n, len(s))`, counted from the end for a negative `n` |
| Ranking.RankedTake | recommendations/ai_engine.py:304-305 | a sorted-then-cut list is sorted, a sub-multiset of the input (all of it when `n >= len`), and stable; no element left out has a larger key than one kept |
| Skills.NormalizeSkills | recommendations/ai_engine.py:173 | one normalised entry per comma-separated piece, so at least one |
| Skills.NormalizedEntries | recommendations/ai_engine.py:173 | each entry holds no comma and no upper-case letter, and has no whitespace at either end |
| Skills.UserSkillList | recommendations/ai_engine.py:272 | the gap analysis has no user entries exactly when the skill text is empty |
| Skills.CoveredIff | recommendations/ai_engine.py:275 | a skill is covered exactly when some user entry is a substring of its lower-cased name |
| Skills.Uncovered | recommendations/ai_engine.py:273-275 | the gap list is no longer than the skills, and holds only career skills that no entry covers |
| Skills.UncoveredIsSubsequence | recommendations/ai_engine.py:273-275 | the gap list keeps the career's order |
| Skills.UncoveredComplete | recommendations/ai_engine.py:273-275 | every uncovered career skill is on the gap list |
| Skills.UncoveredNoUserSkills | recommendations/ai_engine.py:272-275 | with no user entries every skill is a gap |
| Skills.CoveredPlusUncovered | assessments/ai_engine.py:85-86 | every required skill is either covered or a gap, never both |
| Skills.UncoveredOfPrefix | recommendations/ai_engine.py:317-319 | filtering a prefix of the skills yields a prefix of the gap list |
| Skills.UncoveredSnoc | recommendations/ai_engine.py:317-319 | the filter loop appends a skill exactly when no entry covers it |
| Skills.EmptyEntryCoversAll | recommendations/ai_engine.py:272-275 | an empty entry (from `"python,"`) covers every skill, so there are no gaps |
| CareerAI.CalculatePersonalityCompatibility | recommendations/ai_engine.py:147-165 | 0.5 for an absent or unknown code; otherwise the mean similarity over the career's known codes, 0.5 when there are none |
| CareerAI.Similarities | recommendations/ai_engine.py:155-163 | at most one similarity per career code |
| CareerAI.PersonalityScoreBounds | recommendations/ai_engine.py:155-165 | with a similarity measure in [0, 1] the personality sub-score is in [0, 1] |
| CareerAI.SkillMatchScore | recommendations/ai_engine.py:169-170 | 0.3 when the skill text or the required list is empty |
| CareerAI.CalculateSkillMatch | recommendations/ai_engine.py:167-194 | the loop with its counter and `break` computes 0.7 × exact fraction + 0.3 × partial fraction |
| Ranking.Fraction | recommendations/ai_engine.py:180-191 | a count over a positive total is non-negative, at most 1 when the count is at most the total, and exactly 1 when they are equal |
| CareerAI.PartiallyMatchedIff | recommendations/ai_engine.py:186-189 | a required skill is partially matched exactly when some user entry is a substring of it or it is a substring of the entry |
| CareerAI.ExactAtMostPartial | recommendations/ai_engine.py:180-189 | exact matches never outnumber partial matches, and partial matches never outnumber required skills |
| CareerAI.SkillMatchBounds | recommendations/ai_engine.py:179-194 | the skill sub-score is in [0, 1] |
| CareerAI.EmptyEntryMatchesAll | recommendations/ai_engine.py:185-189 | an empty user entry partially matches every required skill |
| CareerAI.SkillMatchWithEmptyEntry | recommendations/ai_engine.py:185-194 | with an empty entry the partial fraction is 1, so the score is 0.7 × exact fraction + 0.3 |
| CareerAI.EducationLevel | recommendations/ai_engine.py:198-206 | the user's level is between 1 and 4 |
| CareerAI.RequiredLevel | recommendations/ai_engine.py:207 | the required level is 1, 2 or 3 |
| CareerAI.EducationCompatibility | recommendations/ai_engine.py:196-214 | the result is 1.0, 0.7 or 0.3; 1.0 exactly when the user's level reaches the required one; 0.3 exactly when it is more than one level below |
| CareerAI.EducationMonotone | recommendations/ai_engine.py:209-214 | a higher level never lowers the education sub-score |
| CareerAI.UnknownEducation | recommendations/ai_engine.py:206 | an education value the table does not know scores like "high_school" |
| CareerAI.TrendFor | recommendations/ai_engine.py:219 | the category's trend, or the default trend (salary growth 3) for a category the table does not list |
| CareerAI.MarketFactor | recommendations/ai_engine.py:216-235 | job growth / 30 weighted 0.4, plus salary growth / 10 weighted 0.3, plus for a remote-friendly career the remote preference (default 0.5) weighted 0.3 |
| CareerAI.DefaultSalaryGrowthInRange | recommendations/ai_engine.py:136-145 | every salary growth in the shipped trend table is between 0 and 10 |
| CareerAI.MarketFactorBounds | recommendations/ai_engine.py:216-235 | job growth in [0, 30], salary growth in [0, 10] and a preference in [0, 1] keep the market sub-score in [0, 1] |
| CareerAI.MarketFactorUnclamped | recommendations/ai_engine.py:224-235 | the market sub-score is not clamped: a remote Technology career with growth 35 or more and the full preference scores above 1 |
| CareerAI.MarketFactorDefaults | recommendations/ai_engine.py:219-229 | an unknown category uses salary growth 3, and a missing preference counts 0.5 |
| CareerAI.CoursesFor | recommendations/ai_engine.py:332-334 | at most one course per priority skill |
| CareerAI.PrioritySkills | recommendations/ai_engine.py:317-319 | the career skills among its first five that no user entry covers, in order; so at most five, each uncovered |
| CareerAI.CoursesForSnoc | recommendations/ai_engine.py:332-334 | the course loop extends the list by the first course of a skill the table lists, and by nothing otherwise |
| CareerAI.CoursesForFacts | recommendations/ai_engine.py:322-334 | every course is the first course the table lists for one of the skills |
| CareerAI.GenerateLearningPath | recommendations/ai_engine.py:307-343 | the loops build the specified learning path |
| CareerAI.LearningPathFacts | recommendations/ai_engine.py:317-341 | priority skills are exactly the uncovered ones among the first five, in order; at most three courses, each the first listed for a priority skill; three resources, the first `title + " Career Guide"`; timeline "3-6 months" |
| CareerAI.AllRecommendations | recommendations/ai_engine.py:241-301 | one recommendation per catalog career |
| CareerAI.RecommendationFor | recommendations/ai_engine.py:241-301 | one catalog career's record: its four sub-scores, their weighted total, its gap list, its learning path and the career's own fields |
| CareerAI.WeightedTotal | recommendations/ai_engine.py:264-269 | 0.25 p + 0.30 s + 0.20 e + 0.25 m; the weights add up to 1, so sub-scores in [0, 1] give a total in [0, 1] |
| CareerAI.MissingSkills | recommendations/ai_engine.py:272-276 | the first five career skills no user entry covers; at most five, each a career skill that is uncovered |
| CareerAI.GenerateCareerRecommendations | recommendations/ai_engine.py:237-305 | the loop, sort and cut yield the ranking of the catalog's recommendations, cut to `top_n` |
| CareerAI.RankedOrder | recommendations/ai_engine.py:304-305 | the ranking is non-increasing by total, has `min(top_n, len(catalog))` entries, repeats no catalog entry, keeps catalog order among equal totals, and leaves out no recommendation with a larger total than one kept |
| CareerAI.RecommendationWellFormed | recommendations/ai_engine.py:264-279 | a recommendation's total is the weighted sum of its sub-scores, its gap list holds at most five uncovered skills, and its priority skills are a prefix of its gap list |
| CareerAI.RankedWellFormed | recommendations/ai_engine.py:264-305 | every ranked recommendation is well formed |
| CareerAI.MissingSkillsFacts | recommendations/ai_engine.py:272-276 | the gap list is an order-preserving selection of at most five career skills, none containing a user entry; with no user skills it is the first five |
| CareerAI.PriorityPrefixOfMissing | recommendations/ai_engine.py:317-319 | the priority skills are a prefix of the gap list |
| CareerAI.PartialMatchYetMissing | recommendations/ai_engine.py:273-276 | a user entry that extends a skill's name partially matches it for the score, yet the skill stays on the gap list |
| CareerAI.InCategory | recommendations/ai_engine.py:350-354 | a cluster holds only recommendations of its category |
| CareerAI.AnalyzeCareerClusters | recommendations/ai_engine.py:345-356 | the clusters group the top-20 ranking by category |
| CareerAI.GroupByCategory | recommendations/ai_engine.py:349-354 | the loop builds one key per category of the list, each holding that category's recommendations in list order |
| CareerAI.ClusterStep | recommendations/ai_engine.py:351-354 | filing one recommendation extends the grouping of a prefix to the next prefix |
| CareerAI.ClusterMembership | recommendations/ai_engine.py:350-354 | a recommendation lies in the cluster of its own category and in no other |
| CareerAI.ClusterSorted | recommendations/ai_engine.py:347-354 | within a cluster the ranking order is kept |
| LegacyAI.ContainingCount | assessments/ai_engine.py:50 | at most one match per career code |
| LegacyAI.PersonalityCompatibility | assessments/ai_engine.py:44-51 | 0.5 when the code or the career's codes are empty |
| LegacyAI.PersonalityCompatibilityBounds | assessments/ai_engine.py:44-51 | the personality sub-score is in [0, 1] |
| LegacyAI.PersonalityCompatibilityFull | assessments/ai_engine.py:50-51 | the sub-score is 1 exactly when every career code contains the user's code |
| LegacyAI.ListedCodePositive | assessments/ai_engine.py:50-51 | a career that lists the user's own code scores above 0 |
| LegacyAI.SkillMatch | assessments/ai_engine.py:53-62 | 0 when the skill text or the required list is empty |
| LegacyAI.SkillMatchBounds | assessments/ai_engine.py:53-62 | the skill sub-score is in [0, 1] |
| LegacyAI.MatchedTimesCount | assessments/ai_engine.py:58-62 | the skill sub-score times the number of required skills is the number of required skills that are not gaps |
| LegacyAI.GapComplementsMatch | assessments/ai_engine.py:84-86 | the untruncated gap length plus skill score × skill count equals the skill count |
| LegacyAI.MissingSkills | assessments/ai_engine.py:85-86 | every career skill no user entry covers, untruncated; each a career skill that is uncovered |
| LegacyAI.TotalScore | assessments/ai_engine.py:81-82 | 0.4 p + 0.4 s + 0.2 × demand / 100; sub-scores in [0, 1] and demand in [0, 100] give a total in [0, 1] |
| LegacyAI.RecommendationFor | assessments/ai_engine.py:70-98 | one catalog career's record: both sub-scores, their total with the demand score, the untruncated gap list and the career's own fields |
| LegacyAI.GenerateRecommendations | assessments/ai_engine.py:64-102 | the loop, sort and cut yield the ranking of the catalog's recommendations, cut to ten |
| LegacyAI.RankedFacts | assessments/ai_engine.py:66-102 | the ranking is non-increasing by total, has `min(10, len(data))` entries, repeats no entry, keeps catalog order among equal totals, leaves out no recommendation with a larger total than one kept, and each entry is the recommendation of a catalog career |
| LegacyAI.EmptyProfileRanksByDemand | assessments/ai_engine.py:81-82 | with no personality and no skills a career's total is 0.2 + 0.2 × demand / 100 |
| AssessmentTally.Dichotomy | assessments/views.py:95-98 | each letter of the code is one of its pair |
| AssessmentTally.Tally | assessments/views.py:86-91 | the sum of the weights of the answers whose value is the given letter |
| AssessmentTally.PersonalityCode | assessments/views.py:94-100 | the code has four letters, the i-th from the i-th pair E/I, S/N, T/F, J/P |
| AssessmentTally.CalculatePersonalityType | assessments/views.py:68-100 | the dictionary loop and the four appends build the specified code |
| AssessmentTally.StrictMajority | assessments/views.py:95-98 | the first letter of a pair is chosen exactly when its tally is strictly larger; a tie gives the second |
| AssessmentTally.NoAnswersGiveINFP | assessments/views.py:74-98 | with no answers the code is "INFP" |
| AssessmentTally.TallyAppend | assessments/views.py:86-91 | one more answer changes only its own value's tally, by its weight |
| AssessmentTally.NonLetterIgnored | assessments/views.py:90-91 | an answer whose value is not one of the eight letters leaves the code unchanged |
| AssessmentTally.SupportKeepsLetter | assessments/views.py:90-98 | an answer with a non-negative weight for a letter the code shows keeps that letter |
| AssessmentTally.TalliesHoldLetterWeights | assessments/views.py:86-91 | the eight tallies together hold exactly the weights of the answers with a letter value |
| AssessmentTally.CountUpTo | assessments/views.py:106-108 | a value is counted at most once per answer |
| AssessmentTally.GetDominantTraits | assessments/views.py:103-111 | the counting loop, sort and cut yield the specified top five (value, count) pairs |
| AssessmentTally.SeenIffCounted | assessments/views.py:106-108 | a value is a dictionary key exactly when it has been counted at least once |
| AssessmentTally.FirstSeenDistinct | assessments/views.py:105-108 | the dictionary keys are distinct |
| AssessmentTally.CountsAddUp | assessments/views.py:105-108 | every answer is counted under exactly one key |
| AssessmentTally.ItemsFacts | assessments/views.py:105-111 | the items are distinct values, each paired with its number of occurrences (at least one); every answer's value is among them; the counts add up to the number of answers |
| AssessmentTally.SumCountsSort | assessments/views.py:111 | sorting the items keeps the sum of the counts |
| AssessmentTally.DominantTraits | assessments/views.py:111 | the (value, count) items sorted by count, largest first, stably, and cut to five |
| AssessmentTally.DominantTraitsFacts | assessments/views.py:111 | at most five pairs, non-increasing by count, each with its value's true count; no repetition; earlier-seen values first among equal counts; no value left out is more frequent than one kept; counts sum to at most the number of answers; with at most five distinct values every value is there once and the counts sum to the number of answers |

## Left out

- Rounding: the source stores `round(score * 100, 1)` (`round(..., 2)` in the legacy scorer)
  and sorts by that rounded percentage. The model keeps the unrounded fractions and sorts by
  them. Two careers whose totals differ by less than the rounding step can therefore be
  ordered differently from the source, which would tie them and keep catalog order.
- CareerAI.RankedOrder: the ranking is stated over the unrounded totals, for the reason above.
- LegacyAI.RankedFacts: the ranking is stated over the unrounded totals, for the reason above.
- Cosine similarity (numpy dot product, norms, mean) is not modelled. It is a function
  parameter `cosine`, and only the 0.5 defaults and the averaging are proved.
- Floating point: weights and scores are exact reals. Python floats round at every step.
- `lower()` and `strip()` are modelled on ASCII only; Unicode case mapping and Unicode
  whitespace are not part of this model.
- A missing `personality_type` or `skills` (`None`) is modelled as "", which the source
  treats alike. A missing `education_level` is the caller's "high_school", and a missing
  `remote_work` preference is `None` in `Option`.
- The clusters dictionary is a `map`: its key insertion order (first appearance in the
  ranking) is not modelled. The order within each cluster is.
- The course table is a local literal of `generate_learning_path`. Here it is part of the
  `Engine` value, next to the catalog and trend tables, so that proofs are not burdened
  with the literal. `Default` holds the shipped tables.
- The default argument `top_n=10` of `generate_career_recommendations` has no Dafny
  counterpart: `GenerateCareerRecommendations` takes `topN` explicitly, and callers pass 10
  for the default.
- The grouping loop of `analyze_career_clusters` is a method of its own, `GroupByCategory`.
- The dead emptiness test at recommendations/ai_engine.py:176 is not modelled: splitting
  always yields at least one entry, and the required list is already non-empty.
- In `get_dominant_traits`, the answer dictionary's iteration order is the order of the
  answer sequence.
- Unused imports and fields (`TfidfVectorizer`, `KMeans`, `requests`, `pandas`, logging),
  the global instances, the Django views, models, forms, URL routing and the test-data
  command are not part of this model.
