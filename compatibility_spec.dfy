/** The reference definition of the compatibility score of a subject profile
    against a target profile: six independently computed terms, each skipped
    when either side lacks its field, and the issues raised by the mismatched
    ones, in a fixed order. */
module CompatibilitySpec {
  import opened Wrappers
  import opened Schemas

  /** The fixed pairing of opposite-but-compatible traits. */
  function Complement(t: PersonalityTrait): PersonalityTrait
  {
    match t
    case Introvert => Extrovert
    case Extrovert => Introvert
    case Adventurous => Cautious
    case Cautious => Adventurous
    case Spontaneous => Planned
    case Planned => Spontaneous
    case Analytical => Creative
    case Creative => Analytical
    case Traditional => Modern
    case Modern => Traditional
  }

  /** The ten traits in the order the enumeration declares them. */
  const AllTraits: seq<PersonalityTrait> :=
    [Introvert, Extrovert, Adventurous, Cautious, Spontaneous,
     Planned, Analytical, Creative, Traditional, Modern]

  /** The issue strings, in the order the scorer raises them. */
  const GoalsIssue: string := "Different relationship goals"
  const ChildrenIssue: string := "Different views on having children"
  const SmokingIssue: string := "Different smoking habits"
  const DrinkingIssue: string := "Different drinking habits"
  const EducationIssue: string := "Different education levels"
  const LanguagesIssue: string := "No common languages"
  const AllIssues: seq<string> :=
    [GoalsIssue, ChildrenIssue, SmokingIssue, DrinkingIssue, EducationIssue, LanguagesIssue]

  /** The result of scoring: the four values a report stores. */
  datatype Breakdown = Breakdown(
    score: real,
    commonInterests: set<string>,
    personalityMatch: map<PersonalityTrait, real>,
    potentialIssues: seq<string>)

  /** What one of the goal, children, lifestyle or language checks adds:
      its points, and whether it raises its issue. */
  datatype Term = Term(points: real, raisesIssue: bool)

  function SetOf<T>(s: seq<T>): set<T>
  {
    set x | x in s
  }

  function Max(a: int, b: int): int
  {
    if a >= b then a else b
  }

  /** The two strings are x and y, in either order. */
  predicate EitherOrder(a: string, b: string, x: string, y: string)
  {
    (a == x && b == y) || (a == y && b == x)
  }

  // ---------------------------------------------------------------------------
  // Interests (weight 30)

  function CommonInterests(i1: Option<seq<string>>, i2: Option<seq<string>>): set<string>
  {
    if Truthy(i1) && Truthy(i2) then SetOf(i1.value) * SetOf(i2.value) else {}
  }

  /** Shared interests over the longer of the two lists (duplicates included). */
  function InterestPoints(i1: Option<seq<string>>, i2: Option<seq<string>>): real
  {
    if Truthy(i1) && Truthy(i2) then
      (|CommonInterests(i1, i2)| as real) / (Max(|i1.value|, |i2.value|) as real) * 30.0
    else 0.0
  }

  // ---------------------------------------------------------------------------
  // Personality (weight 25)

  /** How well one trait of the subject matches the target's traits. */
  function MatchWeight(t: PersonalityTrait, others: seq<PersonalityTrait>): real
  {
    if t in others then 1.0
    else if Complement(t) in others then 0.8
    else 0.3
  }

  function PersonalityMatch(t1: Option<seq<PersonalityTrait>>, t2: Option<seq<PersonalityTrait>>)
    : map<PersonalityTrait, real>
  {
    if Truthy(t1) && Truthy(t2) then map t | t in t1.value :: MatchWeight(t, t2.value)
    else map[]
  }

  /** The sum of the match weights of those traits of ts that lie in present. */
  function TraitSum(ts: seq<PersonalityTrait>, present: set<PersonalityTrait>, others: seq<PersonalityTrait>): real
  {
    if ts == [] then 0.0
    else
      var last := ts[|ts| - 1];
      TraitSum(ts[..|ts| - 1], present, others) + (if last in present then MatchWeight(last, others) else 0.0)
  }

  /** Each distinct subject trait counts once in the sum; the divisor is the
      length of the subject's list, duplicates included. */
  function PersonalityPoints(t1: Option<seq<PersonalityTrait>>, t2: Option<seq<PersonalityTrait>>): real
  {
    if Truthy(t1) && Truthy(t2) then
      TraitSum(AllTraits, SetOf(t1.value), t2.value) / (|t1.value| as real) * 25.0
    else 0.0
  }

  // ---------------------------------------------------------------------------
  // Relationship goals (15), children (10), lifestyle (3 + 3 + 4), languages (10)

  predicate GoalsMismatch(g1: Option<string>, g2: Option<string>)
  {
    Truthy(g1) && Truthy(g2) && g1.value != g2.value
    && !EitherOrder(g1.value, g2.value, "casual", "friendship")
  }

  function GoalsTerm(g1: Option<string>, g2: Option<string>): Term
  {
    if Truthy(g1) && Truthy(g2) then
      if g1.value == g2.value then Term(15.0, false)
      else if EitherOrder(g1.value, g2.value, "casual", "friendship") then Term(10.0, false)
      else Term(0.0, true)
    else Term(0.0, false)
  }

  predicate ChildrenMismatch(c1: Option<bool>, c2: Option<bool>)
  {
    c1.Some? && c2.Some? && c1.value != c2.value
  }

  function ChildrenTerm(c1: Option<bool>, c2: Option<bool>): Term
  {
    if c1.Some? && c2.Some? then
      if c1.value == c2.value then Term(10.0, false) else Term(0.0, true)
    else Term(0.0, false)
  }

  /** Smoking and drinking share this rule. */
  predicate HabitMismatch(h1: Option<string>, h2: Option<string>)
  {
    Truthy(h1) && Truthy(h2) && h1.value != h2.value
    && !EitherOrder(h1.value, h2.value, "never", "sometimes")
  }

  function HabitTerm(h1: Option<string>, h2: Option<string>): Term
  {
    if Truthy(h1) && Truthy(h2) then
      if h1.value == h2.value then Term(3.0, false)
      else if EitherOrder(h1.value, h2.value, "never", "sometimes") then Term(1.0, false)
      else Term(0.0, true)
    else Term(0.0, false)
  }

  predicate EducationMismatch(e1: Option<string>, e2: Option<string>)
  {
    Truthy(e1) && Truthy(e2) && e1.value != e2.value
  }

  function EducationTerm(e1: Option<string>, e2: Option<string>): Term
  {
    if Truthy(e1) && Truthy(e2) then
      if e1.value == e2.value then Term(4.0, false) else Term(0.0, true)
    else Term(0.0, false)
  }

  predicate LanguagesMismatch(l1: Option<seq<string>>, l2: Option<seq<string>>)
  {
    Truthy(l1) && Truthy(l2) && SetOf(l1.value) * SetOf(l2.value) == {}
  }

  function LanguagesTerm(l1: Option<seq<string>>, l2: Option<seq<string>>): Term
  {
    if Truthy(l1) && Truthy(l2) then
      if SetOf(l1.value) * SetOf(l2.value) != {} then Term(10.0, false) else Term(0.0, true)
    else Term(0.0, false)
  }

  /** The smoking, drinking and education points together. */
  function LifestylePoints(u1: Profile, u2: Profile): real
  {
    HabitTerm(u1.smoking, u2.smoking).points
    + HabitTerm(u1.drinking, u2.drinking).points
    + EducationTerm(u1.education, u2.education).points
  }

  /** The issue a check contributes to the list: none, or its own. */
  function IssueIf(raised: bool, issue: string): seq<string>
  {
    if raised then [issue] else []
  }

  /** The issues, in the order the checks run. */
  function PotentialIssues(u1: Profile, u2: Profile): seq<string>
  {
    IssueIf(GoalsTerm(u1.relationshipGoals, u2.relationshipGoals).raisesIssue, GoalsIssue)
    + IssueIf(ChildrenTerm(u1.wantsChildren, u2.wantsChildren).raisesIssue, ChildrenIssue)
    + IssueIf(HabitTerm(u1.smoking, u2.smoking).raisesIssue, SmokingIssue)
    + IssueIf(HabitTerm(u1.drinking, u2.drinking).raisesIssue, DrinkingIssue)
    + IssueIf(EducationTerm(u1.education, u2.education).raisesIssue, EducationIssue)
    + IssueIf(LanguagesTerm(u1.languages, u2.languages).raisesIssue, LanguagesIssue)
  }

  /** The compatibility of subject u1 with target u2. */
  function Compatibility(u1: Profile, u2: Profile): Breakdown
  {
    Breakdown(
      InterestPoints(u1.interests, u2.interests)
        + PersonalityPoints(u1.personalityTraits, u2.personalityTraits)
        + GoalsTerm(u1.relationshipGoals, u2.relationshipGoals).points
        + ChildrenTerm(u1.wantsChildren, u2.wantsChildren).points
        + LifestylePoints(u1, u2)
        + LanguagesTerm(u1.languages, u2.languages).points,
      CommonInterests(u1.interests, u2.interests),
      PersonalityMatch(u1.personalityTraits, u2.personalityTraits),
      PotentialIssues(u1, u2))
  }
}
