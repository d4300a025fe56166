/** What the compatibility score promises: its bounds, the shape of the common
    interests and of the personality map, the order and meaning of the issues,
    and how the two directions of a pair relate. Also the model of the
    dictionary the scorer fills in: its keys in insertion order and the sum of
    its values. */
module CompatibilityProperties {
  import opened Wrappers
  import opened Schemas
  import opened CompatibilitySpec

  // ---------------------------------------------------------------------------
  // The complementary-trait table

  lemma ComplementIsInvolution(t: PersonalityTrait)
    ensures Complement(Complement(t)) == t
    ensures Complement(t) != t
  {
  }

  // ---------------------------------------------------------------------------
  // Sets drawn from lists

  lemma {:induction false} SetOfBound<T>(s: seq<T>)
    ensures |SetOf(s)| <= |s|
  {
    if s != [] {
      var init := s[..|s| - 1];
      SetOfBound(init);
      assert SetOf(s) == SetOf(init) + {s[|s| - 1]} by {
        assert s == init + [s[|s| - 1]];
      }
    }
  }

  lemma IntersectionBound<T>(a: seq<T>, b: seq<T>)
    ensures |SetOf(a) * SetOf(b)| <= |a|
  {
    SetOfBound(a);
    var A, B := SetOf(a), SetOf(b);
    assert A == (A * B) + (A - B);
    assert (A * B) * (A - B) == {};
  }

  /** Sharing the longer list's worth of interests is the most one can get. */
  lemma InterestPointsBound(i1: Option<seq<string>>, i2: Option<seq<string>>)
    ensures 0.0 <= InterestPoints(i1, i2) <= 30.0
  {
    if Truthy(i1) && Truthy(i2) {
      IntersectionBound(i1.value, i2.value);
      RatioBound(|CommonInterests(i1, i2)| as real, Max(|i1.value|, |i2.value|) as real);
    }
  }

  lemma RatioBound(x: real, y: real)
    requires 0.0 <= x <= y && y > 0.0
    ensures 0.0 <= x / y <= 1.0
  {
    assert x / y * y == x;
  }

  /** The common interests are exactly the interests both lists hold, and
      none when either list is missing or empty. */
  lemma CommonInterestsAreShared(i1: Option<seq<string>>, i2: Option<seq<string>>, x: string)
    ensures x in CommonInterests(i1, i2) <==>
      Truthy(i1) && Truthy(i2) && x in i1.value && x in i2.value
  {
  }

  // ---------------------------------------------------------------------------
  // The personality dictionary: keys in insertion order, and the sum of values

  predicate NoDuplicates<T(==)>(s: seq<T>)
  {
    forall i, j :: 0 <= i < j < |s| ==> s[i] != s[j]
  }

  /** The distinct elements of s, in order of first occurrence: the keys of a
      dictionary after writing to the entries of s in turn. */
  function Distinct(s: seq<PersonalityTrait>): seq<PersonalityTrait>
  {
    if s == [] then []
    else
      var init := s[..|s| - 1];
      if s[|s| - 1] in init then Distinct(init) else Distinct(init) + [s[|s| - 1]]
  }

  lemma {:induction false} DistinctKeys(s: seq<PersonalityTrait>)
    ensures SetOf(Distinct(s)) == SetOf(s)
    ensures NoDuplicates(Distinct(s))
    ensures |Distinct(s)| <= |s|
  {
    if s != [] {
      var init := s[..|s| - 1];
      DistinctKeys(init);
      assert s == init + [s[|s| - 1]];
      assert SetOf(s) == SetOf(init) + {s[|s| - 1]};
    }
  }

  /** The sum of the match weights of keys, in order. */
  function WeightSum(keys: seq<PersonalityTrait>, others: seq<PersonalityTrait>): real
  {
    if keys == [] then 0.0
    else WeightSum(keys[..|keys| - 1], others) + MatchWeight(keys[|keys| - 1], others)
  }

  lemma {:induction false} WeightSumBound(keys: seq<PersonalityTrait>, others: seq<PersonalityTrait>)
    ensures 0.3 * (|keys| as real) <= WeightSum(keys, others) <= |keys| as real
  {
    if keys != [] {
      WeightSumBound(keys[..|keys| - 1], others);
    }
  }

  lemma {:induction false} TraitSumAdd(ts: seq<PersonalityTrait>, present: set<PersonalityTrait>,
                                      k: PersonalityTrait, others: seq<PersonalityTrait>)
    requires k !in present && NoDuplicates(ts)
    ensures TraitSum(ts, present + {k}, others)
      == TraitSum(ts, present, others) + (if k in ts then MatchWeight(k, others) else 0.0)
  {
    if ts != [] {
      var init := ts[..|ts| - 1];
      assert ts == init + [ts[|ts| - 1]];
      TraitSumAdd(init, present, k, others);
    }
  }

  lemma AllTraitsListsEveryTrait(t: PersonalityTrait)
    ensures t in AllTraits
    ensures NoDuplicates(AllTraits)
  {
  }

  /** Summing the weights of the dictionary's keys in insertion order gives
      the same as summing them in the enumeration's order. */
  lemma {:induction false} WeightSumIsTraitSum(keys: seq<PersonalityTrait>, others: seq<PersonalityTrait>)
    requires NoDuplicates(keys)
    ensures WeightSum(keys, others) == TraitSum(AllTraits, SetOf(keys), others)
  {
    if keys == [] {
      assert SetOf(keys) == {};
      TraitSumEmpty(AllTraits, others);
    } else {
      var init, last := keys[..|keys| - 1], keys[|keys| - 1];
      assert keys == init + [last];
      WeightSumIsTraitSum(init, others);
      assert SetOf(keys) == SetOf(init) + {last};
      AllTraitsListsEveryTrait(last);
      TraitSumAdd(AllTraits, SetOf(init), last, others);
    }
  }

  lemma {:induction false} TraitSumEmpty(ts: seq<PersonalityTrait>, others: seq<PersonalityTrait>)
    ensures TraitSum(ts, {}, others) == 0.0
  {
    if ts != [] {
      TraitSumEmpty(ts[..|ts| - 1], others);
    }
  }

  /** The personality term lies in [0, 25]: each distinct trait weighs at most
      1.0 and there are no more distinct traits than entries in the list. */
  lemma PersonalityPointsBound(t1: Option<seq<PersonalityTrait>>, t2: Option<seq<PersonalityTrait>>)
    ensures 0.0 <= PersonalityPoints(t1, t2) <= 25.0
  {
    if Truthy(t1) && Truthy(t2) {
      var s := t1.value;
      DistinctKeys(s);
      WeightSumIsTraitSum(Distinct(s), t2.value);
      WeightSumBound(Distinct(s), t2.value);
      RatioBound(TraitSum(AllTraits, SetOf(s), t2.value), |s| as real);
    }
  }

  /** The personality map has one key per distinct trait of the subject, and
      the weight follows the subject's trait: 1.0 when the target shares it,
      else 0.8 when the target has its complement, else 0.3. */
  lemma PersonalityMatchShape(t1: Option<seq<PersonalityTrait>>, t2: Option<seq<PersonalityTrait>>)
    ensures !(Truthy(t1) && Truthy(t2)) ==> PersonalityMatch(t1, t2) == map[]
    ensures Truthy(t1) && Truthy(t2) ==>
      var m := PersonalityMatch(t1, t2);
      m.Keys == SetOf(t1.value)
      && forall t :: t in m ==>
           (m[t] == 1.0 <==> t in t2.value)
           && (m[t] == 0.8 <==> t !in t2.value && Complement(t) in t2.value)
           && (m[t] == 0.3 <==> t !in t2.value && Complement(t) !in t2.value)
  {
  }

  // ---------------------------------------------------------------------------
  // The remaining terms and the total

  /** The three lifestyle checks add at most 3 + 3 + 4. */
  lemma LifestyleBound(u1: Profile, u2: Profile)
    ensures 0.0 <= LifestylePoints(u1, u2) <= 10.0
  {
  }

  /** Relationship goals: equal is worth 15, casual with friendship 10, any
      other pair of present goals 0 and an issue; a missing goal is worth
      nothing and raises nothing. */
  lemma GoalsCases(g1: Option<string>, g2: Option<string>)
    ensures var t := GoalsTerm(g1, g2);
      && (!(Truthy(g1) && Truthy(g2)) ==> t == Term(0.0, false))
      && (Truthy(g1) && Truthy(g2) && g1.value == g2.value ==> t == Term(15.0, false))
      && (Truthy(g1) && Truthy(g2) && g1.value != g2.value
            && EitherOrder(g1.value, g2.value, "casual", "friendship")
          ==> t == Term(10.0, false))
      && (GoalsMismatch(g1, g2) <==> t == Term(0.0, true))
  {
  }

  /** Smoking and drinking: equal is worth 3, never with sometimes 1, any
      other pair of present habits 0 and the issue. */
  lemma HabitCases(h1: Option<string>, h2: Option<string>)
    ensures var t := HabitTerm(h1, h2);
      && (!(Truthy(h1) && Truthy(h2)) ==> t == Term(0.0, false))
      && (Truthy(h1) && Truthy(h2) && h1.value == h2.value ==> t == Term(3.0, false))
      && (Truthy(h1) && Truthy(h2) && h1.value != h2.value
            && EitherOrder(h1.value, h2.value, "never", "sometimes")
          ==> t == Term(1.0, false))
      && (HabitMismatch(h1, h2) <==> t == Term(0.0, true))
  {
  }

  /** Children: the same known wish is worth 10, opposite wishes 0 and the
      issue; not wanting children is a known wish, and only a missing one
      skips the check. */
  lemma ChildrenCases(c1: Option<bool>, c2: Option<bool>)
    ensures var t := ChildrenTerm(c1, c2);
      && (c1.None? || c2.None? ==> t == Term(0.0, false))
      && (c1 == c2 == Some(false) ==> t == Term(10.0, false))
      && (c1.Some? && c2.Some? && c1.value == c2.value ==> t == Term(10.0, false))
      && (ChildrenMismatch(c1, c2) <==> t == Term(0.0, true))
  {
  }

  /** Education: the same level is worth 4, different levels 0 and the issue. */
  lemma EducationCases(e1: Option<string>, e2: Option<string>)
    ensures var t := EducationTerm(e1, e2);
      && (!(Truthy(e1) && Truthy(e2)) ==> t == Term(0.0, false))
      && (Truthy(e1) && Truthy(e2) && e1.value == e2.value ==> t == Term(4.0, false))
      && (EducationMismatch(e1, e2) <==> t == Term(0.0, true))
  {
  }

  /** Languages: one shared language is worth 10, none shared 0 and the issue. */
  lemma LanguagesCases(l1: Option<seq<string>>, l2: Option<seq<string>>)
    ensures var t := LanguagesTerm(l1, l2);
      && (!(Truthy(l1) && Truthy(l2)) ==> t == Term(0.0, false))
      && (Truthy(l1) && Truthy(l2) && (exists x :: x in l1.value && x in l2.value)
          ==> t == Term(10.0, false))
      && (LanguagesMismatch(l1, l2) <==> t == Term(0.0, true))
  {
    if Truthy(l1) && Truthy(l2) && (exists x :: x in l1.value && x in l2.value) {
      var x :| x in l1.value && x in l2.value;
      assert x in SetOf(l1.value) * SetOf(l2.value);
    }
  }

  /** For any two profiles the score lies in [0, 100]. */
  lemma ScoreBounds(u1: Profile, u2: Profile)
    ensures 0.0 <= Compatibility(u1, u2).score <= 100.0
  {
    InterestPointsBound(u1.interests, u2.interests);
    PersonalityPointsBound(u1.personalityTraits, u2.personalityTraits);
    LifestyleBound(u1, u2);
  }

  // ---------------------------------------------------------------------------
  // The issues

  /** The position of an issue in the fixed order; 6 for any other string. */
  function Rank(issue: string): nat
  {
    if issue == GoalsIssue then 0
    else if issue == ChildrenIssue then 1
    else if issue == SmokingIssue then 2
    else if issue == DrinkingIssue then 3
    else if issue == EducationIssue then 4
    else if issue == LanguagesIssue then 5
    else 6
  }

  /** Every element is a known issue and the ranks strictly increase. */
  predicate InIssueOrder(s: seq<string>)
  {
    (forall i :: 0 <= i < |s| ==> s[i] in AllIssues)
    && forall i, j :: 0 <= i < j < |s| ==> Rank(s[i]) < Rank(s[j])
  }

  lemma IssueRanks()
    ensures Rank(GoalsIssue) == 0 && Rank(ChildrenIssue) == 1 && Rank(SmokingIssue) == 2
    ensures Rank(DrinkingIssue) == 3 && Rank(EducationIssue) == 4 && Rank(LanguagesIssue) == 5
  {
  }

  lemma AppendInOrder(s: seq<string>, raised: bool, issue: string, k: nat)
    requires InIssueOrder(s) && forall i :: 0 <= i < |s| ==> Rank(s[i]) < k
    requires issue in AllIssues && Rank(issue) == k
    ensures InIssueOrder(s + IssueIf(raised, issue))
    ensures forall i :: 0 <= i < |s + IssueIf(raised, issue)| ==> Rank((s + IssueIf(raised, issue))[i]) < k + 1
  {
  }

  /** The issue list built from six raised flags. */
  function IssueList(goals: bool, children: bool, smoking: bool, drinking: bool, education: bool, languages: bool)
    : seq<string>
  {
    IssueIf(goals, GoalsIssue) + IssueIf(children, ChildrenIssue) + IssueIf(smoking, SmokingIssue)
    + IssueIf(drinking, DrinkingIssue) + IssueIf(education, EducationIssue) + IssueIf(languages, LanguagesIssue)
  }

  /** The raised flags of the six checks, in the order they run. */
  lemma PotentialIssuesAsList(u1: Profile, u2: Profile)
    ensures PotentialIssues(u1, u2) == IssueList(
      GoalsTerm(u1.relationshipGoals, u2.relationshipGoals).raisesIssue,
      ChildrenTerm(u1.wantsChildren, u2.wantsChildren).raisesIssue,
      HabitTerm(u1.smoking, u2.smoking).raisesIssue,
      HabitTerm(u1.drinking, u2.drinking).raisesIssue,
      EducationTerm(u1.education, u2.education).raisesIssue,
      LanguagesTerm(u1.languages, u2.languages).raisesIssue)
  {
  }

  lemma IssueListInOrder(goals: bool, children: bool, smoking: bool, drinking: bool, education: bool, languages: bool)
    ensures InIssueOrder(IssueList(goals, children, smoking, drinking, education, languages))
  {
    IssueRanks();
    AppendInOrder([], goals, GoalsIssue, 0);
    var s1 := [] + IssueIf(goals, GoalsIssue);
    AppendInOrder(s1, children, ChildrenIssue, 1);
    var s2 := s1 + IssueIf(children, ChildrenIssue);
    AppendInOrder(s2, smoking, SmokingIssue, 2);
    var s3 := s2 + IssueIf(smoking, SmokingIssue);
    AppendInOrder(s3, drinking, DrinkingIssue, 3);
    var s4 := s3 + IssueIf(drinking, DrinkingIssue);
    AppendInOrder(s4, education, EducationIssue, 4);
    var s5 := s4 + IssueIf(education, EducationIssue);
    AppendInOrder(s5, languages, LanguagesIssue, 5);
    assert s1 == IssueIf(goals, GoalsIssue);
  }

  /** A sequence in issue order has no repeats and at most six entries. */
  lemma {:induction false} InOrderIsShort(s: seq<string>)
    requires InIssueOrder(s)
    ensures NoDuplicates(s)
    ensures |s| <= 6
  {
    forall i, j | 0 <= i < j < |s| ensures s[i] != s[j] {
      assert Rank(s[i]) < Rank(s[j]);
    }
    if |s| > 6 {
      var k := 0;
      while k < 6
        invariant 0 <= k <= 6
        invariant Rank(s[k]) >= k
      {
        assert Rank(s[k]) < Rank(s[k + 1]);
        k := k + 1;
      }
      // s[6] is a known issue, and every known issue has rank at most 5
      assert false;
    }
  }

  /** The issues come in the fixed order goals, children, smoking, drinking,
      education, languages; so there are at most six and no repeats. */
  lemma IssuesInOrder(u1: Profile, u2: Profile)
    ensures InIssueOrder(PotentialIssues(u1, u2))
    ensures |PotentialIssues(u1, u2)| <= 6
    ensures NoDuplicates(PotentialIssues(u1, u2))
  {
    PotentialIssuesAsList(u1, u2);
    IssueListInOrder(
      GoalsTerm(u1.relationshipGoals, u2.relationshipGoals).raisesIssue,
      ChildrenTerm(u1.wantsChildren, u2.wantsChildren).raisesIssue,
      HabitTerm(u1.smoking, u2.smoking).raisesIssue,
      HabitTerm(u1.drinking, u2.drinking).raisesIssue,
      EducationTerm(u1.education, u2.education).raisesIssue,
      LanguagesTerm(u1.languages, u2.languages).raisesIssue);
    InOrderIsShort(PotentialIssues(u1, u2));
  }

  /** An issue is in the list exactly when its own flag is raised. */
  lemma IssueListMembers(goals: bool, children: bool, smoking: bool, drinking: bool, education: bool, languages: bool)
    ensures var s := IssueList(goals, children, smoking, drinking, education, languages);
      && (GoalsIssue in s <==> goals) && (ChildrenIssue in s <==> children)
      && (SmokingIssue in s <==> smoking) && (DrinkingIssue in s <==> drinking)
      && (EducationIssue in s <==> education) && (LanguagesIssue in s <==> languages)
  {
    IssueRanks();
  }

  /** Each issue is raised exactly when both profiles hold the field and the
      values do not fit. */
  lemma IssueRaisedIffMismatch(u1: Profile, u2: Profile)
    ensures var s := PotentialIssues(u1, u2);
      && (GoalsIssue in s <==> GoalsMismatch(u1.relationshipGoals, u2.relationshipGoals))
      && (ChildrenIssue in s <==> ChildrenMismatch(u1.wantsChildren, u2.wantsChildren))
      && (SmokingIssue in s <==> HabitMismatch(u1.smoking, u2.smoking))
      && (DrinkingIssue in s <==> HabitMismatch(u1.drinking, u2.drinking))
      && (EducationIssue in s <==> EducationMismatch(u1.education, u2.education))
      && (LanguagesIssue in s <==> LanguagesMismatch(u1.languages, u2.languages))
  {
    PotentialIssuesAsList(u1, u2);
    IssueListMembers(
      GoalsTerm(u1.relationshipGoals, u2.relationshipGoals).raisesIssue,
      ChildrenTerm(u1.wantsChildren, u2.wantsChildren).raisesIssue,
      HabitTerm(u1.smoking, u2.smoking).raisesIssue,
      HabitTerm(u1.drinking, u2.drinking).raisesIssue,
      EducationTerm(u1.education, u2.education).raisesIssue,
      LanguagesTerm(u1.languages, u2.languages).raisesIssue);
  }

  /** A profile with nothing filled in scores 0 against anyone, in either
      direction, with no interests, traits or issues. */
  lemma BlankProfileScoresZero(u1: Profile, u2: Profile)
    requires Blank(u1) || Blank(u2)
    ensures Compatibility(u1, u2) == Breakdown(0.0, {}, map[], [])
  {
  }

  /** The interest term and the common interests do not depend on which
      side is the subject. */
  lemma InterestsSymmetric(i1: Option<seq<string>>, i2: Option<seq<string>>)
    ensures CommonInterests(i1, i2) == CommonInterests(i2, i1)
    ensures InterestPoints(i1, i2) == InterestPoints(i2, i1)
  {
    if Truthy(i1) && Truthy(i2) {
      assert SetOf(i1.value) * SetOf(i2.value) == SetOf(i2.value) * SetOf(i1.value);
      assert Max(|i1.value|, |i2.value|) == Max(|i2.value|, |i1.value|);
    }
  }

  /** The goals, children, lifestyle and languages checks compare the two
      sides symmetrically. */
  lemma TermsSymmetric(u1: Profile, u2: Profile)
    ensures GoalsTerm(u1.relationshipGoals, u2.relationshipGoals) == GoalsTerm(u2.relationshipGoals, u1.relationshipGoals)
    ensures ChildrenTerm(u1.wantsChildren, u2.wantsChildren) == ChildrenTerm(u2.wantsChildren, u1.wantsChildren)
    ensures HabitTerm(u1.smoking, u2.smoking) == HabitTerm(u2.smoking, u1.smoking)
    ensures HabitTerm(u1.drinking, u2.drinking) == HabitTerm(u2.drinking, u1.drinking)
    ensures EducationTerm(u1.education, u2.education) == EducationTerm(u2.education, u1.education)
    ensures LanguagesTerm(u1.languages, u2.languages) == LanguagesTerm(u2.languages, u1.languages)
  {
    if Truthy(u1.languages) && Truthy(u2.languages) {
      assert SetOf(u1.languages.value) * SetOf(u2.languages.value)
          == SetOf(u2.languages.value) * SetOf(u1.languages.value);
    }
  }

  /** The score without its personality term. */
  function OtherPoints(u1: Profile, u2: Profile): real
  {
    InterestPoints(u1.interests, u2.interests)
    + GoalsTerm(u1.relationshipGoals, u2.relationshipGoals).points
    + ChildrenTerm(u1.wantsChildren, u2.wantsChildren).points
    + LifestylePoints(u1, u2)
    + LanguagesTerm(u1.languages, u2.languages).points
  }

  /** Swapping subject and target changes only the personality term and map:
      every other term, the common interests and the issues are the same. */
  lemma DirectionOnlyAffectsPersonality(u1: Profile, u2: Profile)
    ensures Compatibility(u1, u2).score - PersonalityPoints(u1.personalityTraits, u2.personalityTraits)
         == Compatibility(u2, u1).score - PersonalityPoints(u2.personalityTraits, u1.personalityTraits)
    ensures Compatibility(u1, u2).commonInterests == Compatibility(u2, u1).commonInterests
    ensures Compatibility(u1, u2).potentialIssues == Compatibility(u2, u1).potentialIssues
  {
    InterestsSymmetric(u1.interests, u2.interests);
    TermsSymmetric(u1, u2);
    var a, b := OtherPoints(u1, u2), OtherPoints(u2, u1);
    assert a == b;
    assert Compatibility(u1, u2).score == a + PersonalityPoints(u1.personalityTraits, u2.personalityTraits);
    assert Compatibility(u2, u1).score == b + PersonalityPoints(u2.personalityTraits, u1.personalityTraits);
    PotentialIssuesAsList(u1, u2);
    PotentialIssuesAsList(u2, u1);
  }

  /** An introvert scored against an extrovert gets the complementary weight,
      keyed by the subject's trait, so the two directions give different maps. */
  lemma ComplementaryAsymmetry()
    ensures PersonalityMatch(Some([Introvert]), Some([Extrovert])) == map[Introvert := 0.8]
    ensures PersonalityMatch(Some([Extrovert]), Some([Introvert])) == map[Extrovert := 0.8]
    ensures PersonalityPoints(Some([Introvert]), Some([Extrovert])) == 20.0
  {
    assert SetOf([Introvert]) == {} + {Introvert};
    AllTraitsListsEveryTrait(Introvert);
    TraitSumAdd(AllTraits, {}, Introvert, [Extrovert]);
    TraitSumEmpty(AllTraits, [Extrovert]);
  }
}
