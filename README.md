# Compatibility scorer and report store

This is a Dafny model of the compatibility service of a dating back end, `CompatibilityService` in
`app/services/compatibility.py`. It has two parts.

The first part is the scorer. It compares a subject profile with a target profile and returns four things:

- the score: up to 30 points for shared interests, 25 for personality, 15 for relationship goals, 10 for
  children, 3 + 3 + 4 for smoking, drinking and education, and 10 for a shared language;
- the common interests;
- a dictionary from each of the subject's personality traits to a match weight (1.0, 0.8 or 0.3);
- the list of potential issues.

The second part is the report store, a get-or-create cache. It keys reports on the ordered pair
(user, target).

The model is in five modules:

- `Wrappers`: the `Option` type, for nullable profile fields.
- `Schemas`: the closed `PersonalityTrait` enumeration, the profile fields the scorer reads, and
  Python truthiness of a nullable list or string (present and non-empty).
- `CompatibilitySpec`: the reference definition of the score as pure functions. It has one term
  function per check, the complementary-trait table, the issue list in check order, and
  `Compatibility`, which combines them.
- `CompatibilityProperties`: what is proved about the reference definition, plus the model of the
  personality dictionary. The dictionary's keys are the distinct traits in insertion order, and its
  values are summed in that order.
- `CompatibilityService`: the imperative service.
  - `CalculateCompatibility` accumulates the score, fills the personality dictionary in a loop, sums
    its values in a second loop (`SumValues`), and appends issues. It is proved equal to `Compatibility`.
  - Each check is a small method proved against its term.
  - `ReportStore` is a class holding the users as a map and the report table as a sequence of rows in
    insertion order. The table has no uniqueness constraint on the pair.

Scores are exact reals. Profile fields are `Option`s. Every guard except the children check uses
truthiness; the children check uses "is not None", so `false` is a present value. Interest, trait and
language lists may hold duplicates.

## Model

| member | source | states |
|---|---|---|
| CompatibilityService.CalculateCompatibility | app/services/compatibility.py:9-105 | the four results are exactly the reference breakdown `Compatibility(user1, user2)`: score, common interests, personality map and issue list |
| CompatibilityService.MatchInterests | app/services/compatibility.py:19-23 | nothing when either list is missing or empty; otherwise the intersection of the two lists as sets, and its size over the longer list's length (duplicates counted) times 30 |
| CompatibilityService.MatchPersonality | app/services/compatibility.py:26-50 | the dictionary filled over the subject's traits is the reference personality map; the sum of its values in insertion order, over the subject list's length, is the reference personality term divided by 25 |
| CompatibilityService.SumValues | app/services/compatibility.py:49 | summing a dictionary of match weights over its keys in insertion order gives the insertion-order weight sum, which `WeightSumIsTraitSum` relates to the reference term |
| CompatibilityService.CheckGoals | app/services/compatibility.py:52-60 | the points and the extended issue list agree with the reference goals term |
| CompatibilityService.CheckChildren | app/services/compatibility.py:62-67 | the points and the extended issue list agree with the reference children term; `false` counts as a present value |
| CompatibilityService.CheckHabit | app/services/compatibility.py:70-87 | the shared smoking/drinking rule: integer points and the extended issue list agree with the reference habit term |
| CompatibilityService.CheckEducation | app/services/compatibility.py:89-93 | integer points and the extended issue list agree with the reference education term |
| CompatibilityService.CheckLanguages | app/services/compatibility.py:97-103 | the points and the extended issue list agree with the reference languages term |
| CompatibilityService.FindReport | app/services/compatibility.py:137-140 | None exactly when no stored report is for the pair; otherwise the report at the first index that is for the pair |
| CompatibilityService.FindAfterAppend | app/services/compatibility.py:137-143 | appending a row does not change the answer for a pair that already had a report, and makes the new row the answer for its own pair when that pair had none |
| CompatibilityService.ReportStore.CreateCompatibilityReport | app/services/compatibility.py:108-132 | if either user is missing: None and the table unchanged; otherwise exactly one row appended, holding the pair, the scored values and the date, with earlier rows untouched; every row still refers to existing users |
| CompatibilityService.ReportStore.GetCompatibilityReport | app/services/compatibility.py:135-145 | an existing report for the pair is returned with the table unchanged; otherwise it creates one as above; a returned report is afterwards what the lookup finds and refers to two existing users; at most one report per pair is preserved |
| CompatibilityService.RepeatedRequestIsCached | app/services/compatibility.py:135-145 | two requests for the same pair give the same report, even on different days; the report was either stored before or dated on the first day; the first request adds at most one row and the second adds none |
| CompatibilityProperties.ComplementIsInvolution | app/services/compatibility.py:32-43 | the complementary table is an involution with no fixed points over the ten traits |
| CompatibilityProperties.InterestPointsBound | app/services/compatibility.py:19-23 | the interest term lies in [0, 30], because the common set is no larger than either list |
| CompatibilityProperties.CommonInterestsAreShared | app/services/compatibility.py:15-21 | an interest is common exactly when both lists are present and non-empty and both contain it |
| CompatibilityProperties.DistinctKeys | app/services/compatibility.py:27-47 | the dictionary's keys in insertion order are the distinct traits of the subject's list, with no repeats and no more of them than list entries |
| CompatibilityProperties.WeightSumBound | app/services/compatibility.py:44-49 | the sum of n match weights lies between 0.3·n and n |
| CompatibilityProperties.WeightSumIsTraitSum | app/services/compatibility.py:49 | the sum of the dictionary's values in insertion order equals the sum over the distinct traits in enumeration order |
| CompatibilityProperties.PersonalityPointsBound | app/services/compatibility.py:26-50 | the personality term lies in [0, 25]: the dictionary drops duplicate traits while the divisor counts them |
| CompatibilityProperties.PersonalityMatchShape | app/services/compatibility.py:16-47 | the map is empty when either trait list is missing or empty; otherwise its keys are exactly the subject's traits, and a weight is 1.0 iff the target shares the trait, 0.8 iff the target lacks it but has its complement, and 0.3 iff the target has neither |
| CompatibilityProperties.ComplementaryAsymmetry | app/services/compatibility.py:26-47 | an introvert against an extrovert gets the complementary weight, keyed by the subject's trait, so the two directions give different maps |
| CompatibilityProperties.GoalsCases | app/services/compatibility.py:53-60 | a missing goal gives 0 and no issue; equal goals give 15; casual with friendship, in either order, gives 10; every other present pair gives 0 and the issue, and only those pairs raise it |
| CompatibilityProperties.ChildrenCases | app/services/compatibility.py:63-67 | a missing wish gives 0 and no issue; equal wishes, including both false, give 10; opposite wishes, and only those, give 0 and the issue |
| CompatibilityProperties.HabitCases | app/services/compatibility.py:71-87 | a missing habit gives 0 and no issue; equal habits give 3; never with sometimes gives 1; every other present pair gives 0 and the issue, and only those pairs raise it |
| CompatibilityProperties.EducationCases | app/services/compatibility.py:89-93 | a missing level gives 0 and no issue; equal levels give 4; different levels, and only those, give 0 and the issue |
| CompatibilityProperties.LanguagesCases | app/services/compatibility.py:98-103 | a missing list gives 0 and no issue; any shared language gives 10; disjoint present lists, and only those, give 0 and the issue |
| CompatibilityProperties.LifestyleBound | app/services/compatibility.py:70-95 | the lifestyle total lies in [0, 10] |
| CompatibilityProperties.ScoreBounds | app/services/compatibility.py:19-103 | for any two profiles the score lies in [0, 100] |
| CompatibilityProperties.IssuesInOrder | app/services/compatibility.py:60-103 | the issues follow the fixed order goals, children, smoking, drinking, education, languages; there are at most six and no repeats |
| CompatibilityProperties.IssueRaisedIffMismatch | app/services/compatibility.py:53-103 | each issue is in the list exactly when both profiles hold that field and the values do not fit |
| CompatibilityProperties.BlankProfileScoresZero | app/services/compatibility.py:14-105 | when either profile has every field the scorer reads absent or empty, the score is 0 and all three collections are empty |
| CompatibilityProperties.InterestsSymmetric | app/services/compatibility.py:20-23 | the common interests and the interest term are the same whichever side is the subject |
| CompatibilityProperties.TermsSymmetric | app/services/compatibility.py:53-103 | the goals, children, smoking, drinking, education and languages terms are the same whichever side is the subject |
| CompatibilityProperties.DirectionOnlyAffectsPersonality | app/services/compatibility.py:19-103 | swapping subject and target changes only the personality term and map; the other terms, the common interests and the issues are the same |

## Left out

- The database session (`query`, `add`, `commit`, `refresh`) is modelled as in-memory state: a map
  from user id to profile and a sequence of report rows. Lookup by id is map lookup, and `.first()` is
  the first matching row in insertion order.
- The report's auto-increment `id` column is omitted; a row's position in the sequence identifies it.
- The current date comes from the system clock in the source. In the model it is the `today`
  parameter.
- Concurrent requests are not modelled. Two of them can both miss the lookup and both insert a row;
  the model has one caller at a time.
- Scores are exact reals, so floating-point rounding of the ratios and of the sum is not modelled.
- CalculateCompatibility returns the common interests as a set. The source builds its list from a set,
  so the list's order is unspecified, and the model does not pin it down.
- CalculateCompatibility returns the personality dictionary as a map. The dictionary's insertion
  order matters only for the order in which its values are summed; it is modelled inside
  `MatchPersonality` and shown not to change the sum.
- Trait lists are lists of the ten enumeration values. Because the enumeration is closed, the
  complementary table's membership test always succeeds and `Complement` is total. A stored JSON list
  holding some other string is not modelled.
- The profile fields other than the eight the scorer reads are not modelled. The same goes for the
  ORM, schema and migration declarations apart from the report's columns.
- The scorer's sections are written as separate methods, one per check, which the main method calls
  in the source's order; in the source they are inline. Each method appends to the issue list it is
  given, so the order of the appends is the same.
