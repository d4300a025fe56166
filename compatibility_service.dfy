/** The compatibility service: the scorer, which accumulates the score term by
    term, and the report store, which computes a report for a directed pair of
    users on first request and returns the stored one afterwards. */
module CompatibilityService {
  import opened Wrappers
  import opened Schemas
  import opened CompatibilitySpec
  import opened CompatibilityProperties

  /** Scores subject user1 against target user2: the score, the shared
      interests, the per-trait match of the subject's traits and the issues.
      Each check after the interests is its own method below. */
  method CalculateCompatibility(user1: Profile, user2: Profile)
    returns (score: real, commonInterests: set<string>,
             personalityMatch: map<PersonalityTrait, real>, potentialIssues: seq<string>)
    ensures Breakdown(score, commonInterests, personalityMatch, potentialIssues)
         == Compatibility(user1, user2)
  {
    score := 0.0;
    commonInterests := {};
    personalityMatch := map[];
    potentialIssues := [];

    // Interests (30)
    var points: real;
    commonInterests, points := MatchInterests(user1.interests, user2.interests);
    score := score + points;

    // Personality (25)
    if Truthy(user1.personalityTraits) && Truthy(user2.personalityTraits) {
      var personalityScore;
      personalityMatch, personalityScore :=
        MatchPersonality(user1.personalityTraits.value, user2.personalityTraits.value);
      score := score + personalityScore * 25.0;
    }

    // Relationship goals (15) and children (10)
    points, potentialIssues := CheckGoals(user1.relationshipGoals, user2.relationshipGoals, potentialIssues);
    score := score + points;
    assert potentialIssues == IssueIf(GoalsTerm(user1.relationshipGoals, user2.relationshipGoals).raisesIssue, GoalsIssue);
    points, potentialIssues := CheckChildren(user1.wantsChildren, user2.wantsChildren, potentialIssues);
    score := score + points;

    // Lifestyle (3 + 3 + 4), an integer sub-total
    var lifestyleScore: int := 0;
    var habitScore: int;
    habitScore, potentialIssues := CheckHabit(user1.smoking, user2.smoking, SmokingIssue, potentialIssues);
    lifestyleScore := lifestyleScore + habitScore;
    habitScore, potentialIssues := CheckHabit(user1.drinking, user2.drinking, DrinkingIssue, potentialIssues);
    lifestyleScore := lifestyleScore + habitScore;
    habitScore, potentialIssues := CheckEducation(user1.education, user2.education, potentialIssues);
    lifestyleScore := lifestyleScore + habitScore;
    score := score + lifestyleScore as real;

    // Languages (10)
    points, potentialIssues := CheckLanguages(user1.languages, user2.languages, potentialIssues);
    score := score + points;
  }

  /** The shared interests, and their number over the length of the longer
      list, weighted 30; nothing when either list is missing or empty. */
  method MatchInterests(interests1: Option<seq<string>>, interests2: Option<seq<string>>)
    returns (commonInterests: set<string>, points: real)
    ensures commonInterests == CommonInterests(interests1, interests2)
    ensures points == InterestPoints(interests1, interests2)
  {
    commonInterests, points := {}, 0.0;
    if Truthy(interests1) && Truthy(interests2) {
      var list1, list2 := interests1.value, interests2.value;
      commonInterests := SetOf(list1) * SetOf(list2);
      var interestScore := (|commonInterests| as real) / (Max(|list1|, |list2|) as real);
      points := interestScore * 30.0;
    }
  }

  /** Fills the personality dictionary from the subject's traits, in list
      order, and returns it with the sum of its values over the length of the
      subject's list. */
  method MatchPersonality(traits1: seq<PersonalityTrait>, traits2: seq<PersonalityTrait>)
    returns (personalityMatch: map<PersonalityTrait, real>, personalityScore: real)
    requires |traits1| > 0 && |traits2| > 0
    ensures personalityMatch == PersonalityMatch(Some(traits1), Some(traits2))
    ensures personalityScore * 25.0 == PersonalityPoints(Some(traits1), Some(traits2))
  {
    personalityMatch := map[];
    // keys records the dictionary's insertion order, in which its values are summed
    var keys: seq<PersonalityTrait> := [];
    for i := 0 to |traits1|
      invariant personalityMatch == map t | t in traits1[..i] :: MatchWeight(t, traits2)
      invariant keys == Distinct(traits1[..i])
    {
      var subjectTrait := traits1[i];
      assert traits1[..i + 1] == traits1[..i] + [subjectTrait];
      if subjectTrait !in personalityMatch {
        keys := keys + [subjectTrait];
      }
      if subjectTrait in traits2 {
        personalityMatch := personalityMatch[subjectTrait := 1.0];
      } else if Complement(subjectTrait) in traits2 {
        personalityMatch := personalityMatch[subjectTrait := 0.8];
      } else {
        personalityMatch := personalityMatch[subjectTrait := 0.3];
      }
    }
    assert traits1[..|traits1|] == traits1;
    DistinctKeys(traits1);
    var total := SumValues(personalityMatch, keys, traits2);
    WeightSumIsTraitSum(keys, traits2);
    personalityScore := total / (|traits1| as real);
  }

  /** The sum of the dictionary's values, taken over its keys in insertion
      order. */
  method SumValues(personalityMatch: map<PersonalityTrait, real>, keys: seq<PersonalityTrait>,
                   traits2: seq<PersonalityTrait>)
    returns (total: real)
    requires forall t :: t in keys ==> t in personalityMatch && personalityMatch[t] == MatchWeight(t, traits2)
    ensures total == WeightSum(keys, traits2)
  {
    total := 0.0;
    for j := 0 to |keys|
      invariant total == WeightSum(keys[..j], traits2)
    {
      assert keys[..j + 1][..j] == keys[..j];
      total := total + personalityMatch[keys[j]];
    }
    assert keys[..|keys|] == keys;
  }

  /** 15 for the same goal, 10 for casual with friendship, otherwise the issue
      is appended to issuesBefore. */
  method CheckGoals(goals1: Option<string>, goals2: Option<string>, issuesBefore: seq<string>)
    returns (points: real, issues: seq<string>)
    ensures points == GoalsTerm(goals1, goals2).points
    ensures issues == issuesBefore + IssueIf(GoalsTerm(goals1, goals2).raisesIssue, GoalsIssue)
  {
    points, issues := 0.0, issuesBefore;
    if Truthy(goals1) && Truthy(goals2) {
      if goals1.value == goals2.value {
        points := 15.0;
      } else if (goals1.value == "casual" && goals2.value == "friendship")
             || (goals1.value == "friendship" && goals2.value == "casual") {
        points := 10.0;
      } else {
        issues := issues + [GoalsIssue];
      }
    }
  }

  /** 10 for the same known wish, otherwise the issue; false is a known wish. */
  method CheckChildren(wants1: Option<bool>, wants2: Option<bool>, issuesBefore: seq<string>)
    returns (points: real, issues: seq<string>)
    ensures points == ChildrenTerm(wants1, wants2).points
    ensures issues == issuesBefore + IssueIf(ChildrenTerm(wants1, wants2).raisesIssue, ChildrenIssue)
  {
    points, issues := 0.0, issuesBefore;
    if wants1.Some? && wants2.Some? {
      if wants1.value == wants2.value {
        points := 10.0;
      } else {
        issues := issues + [ChildrenIssue];
      }
    }
  }

  /** The smoking and drinking checks, which the scorer writes out twice:
      3 for the same habit, 1 for never with sometimes, otherwise the issue. */
  method CheckHabit(habit1: Option<string>, habit2: Option<string>, issue: string, issuesBefore: seq<string>)
    returns (points: int, issues: seq<string>)
    ensures points as real == HabitTerm(habit1, habit2).points
    ensures issues == issuesBefore + IssueIf(HabitTerm(habit1, habit2).raisesIssue, issue)
  {
    points, issues := 0, issuesBefore;
    if Truthy(habit1) && Truthy(habit2) {
      if habit1.value == habit2.value {
        points := 3;
      } else if (habit1.value == "never" && habit2.value == "sometimes")
             || (habit1.value == "sometimes" && habit2.value == "never") {
        points := 1;
      } else {
        issues := issues + [issue];
      }
    }
  }

  /** 4 for the same education, otherwise the issue. */
  method CheckEducation(education1: Option<string>, education2: Option<string>, issuesBefore: seq<string>)
    returns (points: int, issues: seq<string>)
    ensures points as real == EducationTerm(education1, education2).points
    ensures issues == issuesBefore + IssueIf(EducationTerm(education1, education2).raisesIssue, EducationIssue)
  {
    points, issues := 0, issuesBefore;
    if Truthy(education1) && Truthy(education2) {
      if education1.value == education2.value {
        points := 4;
      } else {
        issues := issues + [EducationIssue];
      }
    }
  }

  /** 10 when the language lists share an entry, otherwise the issue. */
  method CheckLanguages(languages1: Option<seq<string>>, languages2: Option<seq<string>>, issuesBefore: seq<string>)
    returns (points: real, issues: seq<string>)
    ensures points == LanguagesTerm(languages1, languages2).points
    ensures issues == issuesBefore + IssueIf(LanguagesTerm(languages1, languages2).raisesIssue, LanguagesIssue)
  {
    points, issues := 0.0, issuesBefore;
    if Truthy(languages1) && Truthy(languages2) {
      var commonLanguages := SetOf(languages1.value) * SetOf(languages2.value);
      if commonLanguages != {} {
        points := 10.0;
      } else {
        issues := issues + [LanguagesIssue];
      }
    }
  }

  /** A calendar date, supplied by the caller. */
  datatype Date = Date(year: int, month: int, day: int)

  /** A stored report for the directed pair (userId, targetId). */
  datatype Report = Report(
    userId: int,
    targetId: int,
    compatibilityScore: real,
    commonInterests: set<string>,
    personalityMatch: map<PersonalityTrait, real>,
    potentialIssues: seq<string>,
    timestamp: Date)

  predicate IsFor(r: Report, userId: int, targetId: int)
  {
    r.userId == userId && r.targetId == targetId
  }

  /** The report built from a breakdown of the pair, dated today. */
  function ReportFrom(userId: int, targetId: int, b: Breakdown, today: Date): Report
  {
    Report(userId, targetId, b.score, b.commonInterests, b.personalityMatch, b.potentialIssues, today)
  }

  /** The first stored report for the directed pair, if any. */
  function FindReport(reports: seq<Report>, userId: int, targetId: int): (found: Option<Report>)
    ensures found.None? <==> forall i :: 0 <= i < |reports| ==> !IsFor(reports[i], userId, targetId)
    ensures found.Some? ==>
      exists k :: 0 <= k < |reports| && reports[k] == found.value && IsFor(reports[k], userId, targetId)
        && forall j :: 0 <= j < k ==> !IsFor(reports[j], userId, targetId)
  {
    if reports == [] then None
    else if IsFor(reports[0], userId, targetId) then Some(reports[0])
    else
      var found := FindReport(reports[1..], userId, targetId);
      assert found.Some? ==> exists k :: (0 < k < |reports| && reports[k] == found.value
        && IsFor(reports[k], userId, targetId)
        && forall j :: 0 <= j < k ==> !IsFor(reports[j], userId, targetId)) by {
        if found.Some? {
          var k :| 0 <= k < |reports[1..]| && reports[1..][k] == found.value
            && IsFor(reports[1..][k], userId, targetId)
            && forall j :: 0 <= j < k ==> !IsFor(reports[1..][j], userId, targetId);
          assert reports[k + 1] == found.value;
          assert forall j :: 0 <= j < k + 1 ==> !IsFor(reports[j], userId, targetId) by {
            forall j | 0 <= j < k + 1 ensures !IsFor(reports[j], userId, targetId) {
              if j > 0 { assert reports[j] == reports[1..][j - 1]; }
            }
          }
        }
      }
      found
  }

  /** Appending a report leaves the lookup of a pair that already had one
      unchanged, and makes the new report the answer for a pair that had none. */
  lemma {:induction false} FindAfterAppend(reports: seq<Report>, r: Report, userId: int, targetId: int)
    ensures FindReport(reports + [r], userId, targetId)
         == if FindReport(reports, userId, targetId).Some? then FindReport(reports, userId, targetId)
            else if IsFor(r, userId, targetId) then Some(r)
            else None
  {
    if reports != [] {
      assert (reports + [r])[1..] == reports[1..] + [r];
      FindAfterAppend(reports[1..], r, userId, targetId);
    }
  }

  /** The database session as the service sees it: the users, and the report
      table as a list of rows in insertion order (the table has no uniqueness
      constraint on the pair). */
  class ReportStore {
    var users: map<int, Profile>
    var reports: seq<Report>

    /** Every report refers to two existing users. */
    ghost predicate Valid()
      reads this
    {
      forall i :: 0 <= i < |reports| ==> reports[i].userId in users && reports[i].targetId in users
    }

    /** At most one report per directed pair. */
    ghost predicate UniquePairs()
      reads this
    {
      forall i, j :: 0 <= i < j < |reports| ==>
        !IsFor(reports[j], reports[i].userId, reports[i].targetId)
    }

    constructor (users: map<int, Profile>)
      ensures this.users == users && reports == []
      ensures Valid() && UniquePairs()
    {
      this.users := users;
      reports := [];
    }

    /** Scores the pair and stores a new report, whether or not one exists;
      * no report and no change when either user is missing. */
    method CreateCompatibilityReport(userId: int, targetId: int, today: Date) returns (report: Option<Report>)
      requires Valid()
      modifies this`reports
      ensures Valid()
      ensures userId !in users || targetId !in users ==> report == None && reports == old(reports)
      ensures userId in users && targetId in users ==>
        report == Some(ReportFrom(userId, targetId, Compatibility(users[userId], users[targetId]), today))
        && reports == old(reports) + [report.value]
    {
      if userId !in users || targetId !in users {
        return None;
      }
      var score, commonInterests, personalityMatch, potentialIssues :=
        CalculateCompatibility(users[userId], users[targetId]);
      var r := Report(userId, targetId, score, commonInterests, personalityMatch, potentialIssues, today);
      reports := reports + [r];
      report := Some(r);
    }

    /** Returns the stored report for the pair, creating it on first request. */
    method GetCompatibilityReport(userId: int, targetId: int, today: Date) returns (report: Option<Report>)
      requires Valid()
      modifies this`reports
      ensures Valid()
      ensures old(FindReport(reports, userId, targetId)).Some? ==>
        report == old(FindReport(reports, userId, targetId)) && reports == old(reports)
      ensures old(FindReport(reports, userId, targetId)).None? && (userId !in users || targetId !in users) ==>
        report == None && reports == old(reports)
      ensures old(FindReport(reports, userId, targetId)).None? && userId in users && targetId in users ==>
        report == Some(ReportFrom(userId, targetId, Compatibility(users[userId], users[targetId]), today))
        && reports == old(reports) + [report.value]
      ensures report.Some? ==> FindReport(reports, userId, targetId) == report
      ensures report.Some? ==> report.value.userId in users && report.value.targetId in users
      ensures old(UniquePairs()) ==> UniquePairs()
    {
      report := FindReport(reports, userId, targetId);
      if report.Some? {
        // the found row is one of the stored rows, which all refer to existing users
        var k :| 0 <= k < |reports| && reports[k] == report.value && IsFor(reports[k], userId, targetId)
          && forall j :: 0 <= j < k ==> !IsFor(reports[j], userId, targetId);
        assert reports[k].userId in users && reports[k].targetId in users;
      } else {
        report := CreateCompatibilityReport(userId, targetId, today);
        if report.Some? {
          FindAfterAppend(old(reports), report.value, userId, targetId);
        }
      }
    }
  }

  /** Asking twice for the same pair gives the same report, even on another
      day; the first request stores at most one row and the second none
      (storedBetween is the number of rows between the two requests). */
  method RepeatedRequestIsCached(store: ReportStore, userId: int, targetId: int, day1: Date, day2: Date)
    returns (first: Option<Report>, second: Option<Report>, ghost storedBetween: nat)
    requires store.Valid()
    modifies store`reports
    ensures first == second
    ensures first.Some? ==> first.value.timestamp == day1 || first.value in old(store.reports)
    ensures storedBetween <= |old(store.reports)| + 1
    ensures |store.reports| == storedBetween
  {
    first := store.GetCompatibilityReport(userId, targetId, day1);
    ghost var between := store.reports;
    storedBetween := |between|;
    second := store.GetCompatibilityReport(userId, targetId, day2);
    assert store.reports == between;
  }
}
