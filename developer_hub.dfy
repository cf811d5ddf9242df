// The personalised developer hub: tool and course recommendations for the
// signed-in developer, the skill-score update after an assessment, the
// overall progress figure, the profile statistics and the assessment
// walk-through (js/developer-hub.js).

module DeveloperHub {
  import opened Common

  // ---------------------------------------------------------------------
  // Tool recommendations

  datatype HubTool = HubTool(id: string, status: string, category: string, evaluationScore: Option<real>)

  /** `tool.evaluation_score || 0`. */
  function BaseScore(t: HubTool): real
  {
    if t.evaluationScore.Some? then t.evaluationScore.value else 0.0
  }

  /** The evaluation score, plus 2 for a tool the developer listed as an
      interest, plus 1 for an AI-first IDE when the developer is advanced. */
  function ToolScore(t: HubTool, interests: seq<string>, level: string): (r: real)
    ensures BaseScore(t) <= r <= BaseScore(t) + 3.0
    ensures r - BaseScore(t) in {0.0, 1.0, 2.0, 3.0}
    ensures r >= BaseScore(t) + 2.0 <==> t.id in interests
    ensures (r == BaseScore(t) + 1.0 || r == BaseScore(t) + 3.0)
            <==> (level == "advanced" && t.category == "AI_FIRST_IDE")
  {
    var interestBonus := if t.id in interests then 2.0 else 0.0;
    var levelBonus := if level == "advanced" && t.category == "AI_FIRST_IDE" then 1.0 else 0.0;
    BaseScore(t) + interestBonus + levelBonus
  }

  function ToolKey(interests: seq<string>, level: string): HubTool -> real
  {
    (t: HubTool) => ToolScore(t, interests, level)
  }

  function NotInUse(userTools: seq<string>): HubTool -> bool
  {
    (t: HubTool) => t.id !in userTools
  }

  predicate Recommendable(t: HubTool)
  {
    t.status == "PILOT_COMPLETE" || t.status == "EVALUATION"
  }

  /** The tools still open to the developer: not already in use and either
      out of pilot or under evaluation, in catalogue order. */
  function ToolCandidates(all: seq<HubTool>, userTools: seq<string>): (r: seq<HubTool>)
    ensures forall t :: t in r ==> t in all && t.id !in userTools && Recommendable(t)
    ensures forall i :: 0 <= i < |all| && all[i].id !in userTools && Recommendable(all[i]) ==> all[i] in r
  {
    var used := Filter(all, NotInUse(userTools));
    var r := Filter(used, Recommendable);
    assert forall t :: t in used ==> t in all && t.id !in userTools;
    r
  }

  /** At most three candidates, best score first (ties in catalogue order). */
  function GenerateToolRecommendations(all: seq<HubTool>, userTools: seq<string>, interests: seq<string>, level: string): (r: seq<HubTool>)
    ensures |r| <= 3
    ensures forall t :: t in r ==> t in all && t.id !in userTools && Recommendable(t)
    ensures SortedDesc(r, ToolKey(interests, level))
  {
    var cands := ToolCandidates(all, userTools);
    var sorted := SortDesc(cands, ToolKey(interests, level));
    TopOfSorted(sorted, cands, 3, ToolKey(interests, level));
    Take(sorted, 3)
  }

  /** Nothing better was passed over: a candidate that was not recommended
      scores no higher than any recommended tool, and fewer than three
      recommendations means every candidate was recommended. */
  lemma {:induction false} ToolRecommendationsAreTop(all: seq<HubTool>, userTools: seq<string>, interests: seq<string>, level: string, c: HubTool)
    requires c in ToolCandidates(all, userTools)
    requires c !in GenerateToolRecommendations(all, userTools, interests, level)
    ensures |GenerateToolRecommendations(all, userTools, interests, level)| == 3
    ensures forall i :: 0 <= i < 3 ==>
      ToolScore(c, interests, level) <= ToolScore(GenerateToolRecommendations(all, userTools, interests, level)[i], interests, level)
  {
    var key := ToolKey(interests, level);
    var cands := ToolCandidates(all, userTools);
    var sorted := SortDesc(cands, key);
    var r := GenerateToolRecommendations(all, userTools, interests, level);
    assert c in multiset(sorted);
    var j :| 0 <= j < |sorted| && sorted[j] == c;
    assert |sorted| > 3;
    forall i | 0 <= i < 3
      ensures key(c) <= key(r[i])
    {
      assert r[i] == sorted[i];
    }
  }

  // ---------------------------------------------------------------------
  // Learning path

  datatype Course = Course(id: string, name: string, level: string, completionRate: Option<real>)

  /** Which course levels a developer at `userLevel` is shown. */
  predicate VisibleAt(userLevel: string, courseLevel: string)
  {
    if userLevel == "beginner" then courseLevel == "beginner"
    else if userLevel == "intermediate" then courseLevel == "beginner" || courseLevel == "intermediate"
    else true
  }

  function LevelFilter(userLevel: string): Course -> bool
  {
    (c: Course) => VisibleAt(userLevel, c.level)
  }

  /** The curricula on the developer's learning path, in catalogue order. */
  function RelevantCurricula(courses: seq<Course>, userLevel: string): (r: seq<Course>)
    ensures userLevel == "beginner" ==> forall i :: 0 <= i < |r| ==> r[i].level == "beginner"
    ensures userLevel == "intermediate" ==>
      forall i :: 0 <= i < |r| ==> r[i].level == "beginner" || r[i].level == "intermediate"
    ensures forall i :: 0 <= i < |r| ==> r[i] in courses
    ensures forall i :: 0 <= i < |courses| && VisibleAt(userLevel, courses[i].level) ==> courses[i] in r
  {
    Filter(courses, LevelFilter(userLevel))
  }

  /** Any level other than beginner and intermediate sees the whole catalogue. */
  lemma AdvancedSeesEverything(courses: seq<Course>, userLevel: string)
    requires userLevel != "beginner" && userLevel != "intermediate"
    ensures RelevantCurricula(courses, userLevel) == courses
  {
    FilterAll(courses, LevelFilter(userLevel));
  }

  /** A beginner's path is the beginner part of an intermediate's path. */
  lemma BeginnerPathInsideIntermediate(courses: seq<Course>)
    ensures RelevantCurricula(courses, "beginner")
         == Filter(RelevantCurricula(courses, "intermediate"), LevelFilter("beginner"))
  {
    FilterFilter(courses, LevelFilter("intermediate"), LevelFilter("beginner"), LevelFilter("beginner"));
  }

  predicate InProgress(c: Course)
  {
    c.completionRate.Some? && 0.0 < c.completionRate.value < 100.0
  }

  /** The first course that is started but not finished, else the first
      course; nothing only for an empty list. */
  function FindCurrentCourse(courses: seq<Course>): (r: Option<Course>)
    ensures r.None? <==> courses == []
    ensures r.Some? ==> r.value in courses
    ensures (exists i :: 0 <= i < |courses| && InProgress(courses[i])) ==> r.Some? && InProgress(r.value)
    ensures r.Some? && InProgress(r.value) ==>
      exists k :: 0 <= k < |courses| && courses[k] == r.value
        && forall j :: 0 <= j < k ==> !InProgress(courses[j])
    ensures courses != [] && (forall i :: 0 <= i < |courses| ==> !InProgress(courses[i])) ==> r == Some(courses[0])
  {
    match FindFirst(courses, InProgress)
    case Some(k) => Some(courses[k])
    case None => if courses == [] then None else Some(courses[0])
  }

  // ---------------------------------------------------------------------
  // Skill scores

  /** The boost an assessment gives, by skill name. */
  const Improvements: seq<(string, int)> :=
    [("promptEngineering", 5), ("contextEngineering", 10), ("aiSecurity", 15)]

  /** The boost listed for `skill` in `table` (first entry wins). */
  function Lookup(table: seq<(string, int)>, skill: string): (r: Option<int>)
    ensures r.Some? <==> exists i :: 0 <= i < |table| && table[i].0 == skill
  {
    if table == [] then None
    else if table[0].0 == skill then Some(table[0].1)
    else Lookup(table[1..], skill)
  }

  lemma {:induction false} LookupAppend(table: seq<(string, int)>, e: (string, int), skill: string)
    ensures Lookup(table + [e], skill)
         == if Lookup(table, skill).Some? then Lookup(table, skill)
            else if e.0 == skill then Some(e.1) else None
  {
    if table == [] {
      assert table + [e] == [e];
    } else {
      assert (table + [e])[1..] == table[1..] + [e];
      LookupAppend(table[1..], e, skill);
    }
  }

  function Min(a: int, b: int): int { if a <= b then a else b }

  /** One skill after applying the boosts of `table`: a skill with a
      positive or negative (truthy) score is raised and capped at 100; a
      zero score and an unlisted skill stay as they are. */
  function BoostWith(table: seq<(string, int)>, skill: string, v: int): int
  {
    match Lookup(table, skill)
    case None => v
    case Some(d) => if v != 0 then Min(100, v + d) else v
  }

  function Boosted(skills: map<string, int>): (r: map<string, int>)
  {
    map k | k in skills :: BoostWith(Improvements, k, skills[k])
  }

  /** What an assessment does to the skill table: the same skills; only the
      three listed skills move; a score in 0..100 never falls and never
      passes 100; a zero stays zero. */
  lemma BoostedProperties(skills: map<string, int>)
    ensures Boosted(skills).Keys == skills.Keys
    ensures forall k :: k in skills && Lookup(Improvements, k).None? ==> Boosted(skills)[k] == skills[k]
    ensures forall k :: k in skills && skills[k] == 0 ==> Boosted(skills)[k] == 0
    ensures forall k :: k in skills && 0 <= skills[k] <= 100 ==> skills[k] <= Boosted(skills)[k] <= 100
    ensures forall k :: k in skills && 0 < skills[k] <= 100 && Lookup(Improvements, k).Some? ==>
      Boosted(skills)[k] == Min(100, skills[k] + Lookup(Improvements, k).value)
    ensures "toolMastery" in skills ==> Boosted(skills)["toolMastery"] == skills["toolMastery"]
  {
    assert Lookup(Improvements, "toolMastery").None? by {
      assert forall i :: 0 <= i < |Improvements| ==> Improvements[i].0 != "toolMastery";
    }
  }

  /** The table's skill names are distinct. */
  lemma ImprovementFresh(j: nat)
    requires j < |Improvements|
    ensures Lookup(Improvements[..j], Improvements[j].0).None?
  {
    assert forall i :: 0 <= i < j ==> Improvements[i].0 != Improvements[j].0;
  }

  /** One pass of the boost loop: boosting the current scores by the next
      table entry gives the original scores boosted by the longer table. */
  lemma BoostStep(current: map<string, int>, original: map<string, int>, table: seq<(string, int)>, e: (string, int))
    requires current.Keys == original.Keys
    requires forall k :: k in current ==> current[k] == BoostWith(table, k, original[k])
    requires Lookup(table, e.0).None?
    ensures var next := if e.0 in current && current[e.0] != 0 then current[e.0 := Min(100, current[e.0] + e.1)] else current;
      next.Keys == original.Keys && forall k :: k in next ==> next[k] == BoostWith(table + [e], k, original[k])
  {
    forall k | k in current
      ensures Lookup(table + [e], k) == if Lookup(table, k).Some? then Lookup(table, k) else if e.0 == k then Some(e.1) else None
    {
      LookupAppend(table, e, k);
    }
  }

  class SkillProfile {
    var skills: map<string, int>

    constructor(initial: map<string, int>)
      ensures skills == initial
    {
      skills := initial;
    }

    /** Apply the boosts one table entry at a time. */
    method UpdateSkillScores()
      modifies this
      ensures skills == Boosted(old(skills))
    {
      var j := 0;
      while j < |Improvements|
        invariant 0 <= j <= |Improvements|
        invariant skills.Keys == old(skills).Keys
        invariant forall k :: k in skills ==> skills[k] == BoostWith(Improvements[..j], k, old(skills)[k])
      {
        var (skill, improvement) := Improvements[j];
        ImprovementFresh(j);
        BoostStep(skills, old(skills), Improvements[..j], Improvements[j]);
        assert Improvements[..j + 1] == Improvements[..j] + [Improvements[j]];
        if skill in skills && skills[skill] != 0 {
          skills := skills[skill := Min(100, skills[skill] + improvement)];
        }
        j := j + 1;
      }
      assert Improvements[..j] == Improvements;
    }
  }

  // ---------------------------------------------------------------------
  // Overall progress

  function Sum(values: seq<int>): int
  {
    if values == [] then 0 else values[0] + Sum(values[1..])
  }

  /** The mean of the skill percentages; no number (NaN) for no skills. */
  function OverallProgress(values: seq<int>): (r: Option<real>)
    ensures r.Some? <==> values != []
  {
    if values == [] then None else Some(Sum(values) as real / |values| as real)
  }

  lemma {:induction false} SumBounds(values: seq<int>, lo: int, hi: int)
    requires forall i :: 0 <= i < |values| ==> lo <= values[i] <= hi
    ensures |values| * lo <= Sum(values) <= |values| * hi
  {
    if values != [] {
      SumBounds(values[1..], lo, hi);
    }
  }

  /** The mean lies within the range of the percentages. */
  lemma OverallProgressBounds(values: seq<int>, lo: int, hi: int)
    requires values != []
    requires forall i :: 0 <= i < |values| ==> lo <= values[i] <= hi
    ensures lo as real <= OverallProgress(values).value <= hi as real
  {
    SumBounds(values, lo, hi);
    var n := |values| as real;
    assert n * (lo as real) <= Sum(values) as real <= n * (hi as real);
    MeanWithin(Sum(values) as real, n, lo as real, hi as real);
  }

  lemma {:induction false} SumRemove(values: seq<int>, k: nat)
    requires k < |values|
    ensures Sum(values) == values[k] + Sum(values[..k] + values[k + 1..])
  {
    if k > 0 {
      SumRemove(values[1..], k - 1);
      assert values[1..][..k - 1] + values[1..][k..] == (values[..k] + values[k + 1..])[1..];
    } else {
      assert values[..0] + values[1..] == values[1..];
    }
  }

  /** The order in which the skills are listed does not change the sum. */
  lemma {:induction false} SumPermutation(a: seq<int>, b: seq<int>)
    requires multiset(a) == multiset(b)
    ensures Sum(a) == Sum(b)
    decreases |a|
  {
    if a != [] {
      var k := IndexIn(b, a[0]);
      var rest := b[..k] + b[k + 1..];
      RestSameMultiset(a, b, k);
      SumPermutation(a[1..], rest);
      SumRemove(b, k);
    } else {
      assert |multiset(b)| == 0;
    }
  }

  /** Taking the same element out of two permutations of each other
      leaves permutations of each other. */
  lemma RestSameMultiset<T>(a: seq<T>, b: seq<T>, k: nat)
    requires a != [] && multiset(a) == multiset(b) && k < |b| && b[k] == a[0]
    ensures multiset(a[1..]) == multiset(b[..k] + b[k + 1..])
  {
    MultisetRemove(b, k);
    assert a == [a[0]] + a[1..];
    assert multiset(a) == multiset{a[0]} + multiset(a[1..]);
  }

  lemma IndexIn<T>(s: seq<T>, x: T) returns (k: nat)
    requires x in multiset(s)
    ensures k < |s| && s[k] == x
  {
    assert x in s;
    k :| 0 <= k < |s| && s[k] == x;
  }

  lemma MultisetRemove<T>(s: seq<T>, k: nat)
    requires k < |s|
    ensures multiset(s[..k] + s[k + 1..]) == multiset(s) - multiset{s[k]}
  {
    assert s == s[..k] + [s[k]] + s[k + 1..];
  }

  /** Overall progress depends on the skill percentages, not on their order. */
  lemma OverallProgressOrderFree(a: seq<int>, b: seq<int>)
    requires multiset(a) == multiset(b)
    ensures OverallProgress(a) == OverallProgress(b)
  {
    SumPermutation(a, b);
    assert |multiset(a)| == |multiset(b)|;
  }

  // ---------------------------------------------------------------------
  // Profile statistics

  datatype UserStats = UserStats(userLevel: string, completedCourses: string, skillPoints: string, communityRank: string)

  /** `s.charAt(0).toUpperCase() + s.slice(1)`. */
  function Capitalize(s: string): (r: string)
    ensures |r| == |s|
  {
    if s == [] then [] else [UpperChar(s[0])] + s[1..]
  }

  function UpdateUserStats(level: string, completed: nat, total: nat, points: nat, rank: nat): (r: UserStats)
  {
    UserStats(Capitalize(level),
              NatToString(completed) + "/" + NatToString(total),
              GroupThousands(points),
              "#" + NatToString(rank))
  }

  /** The statistics can be read back: the level differs only in the case of
      its first letter, which is upper case; the course text splits on '/'
      into the completed and total counts; the points are the digits of the
      number with group separators; the rank is '#' and the rank's digits. */
  lemma {:induction false} UserStatsReadBack(level: string, completed: nat, total: nat, points: nat, rank: nat)
    ensures var r := UpdateUserStats(level, completed, total, points, rank);
      && Lower(r.userLevel) == Lower(level)
      && (level != [] ==> r.userLevel[0] == UpperChar(level[0]) && r.userLevel[1..] == level[1..])
      && Split(r.completedCourses, '/') == [NatToString(completed), NatToString(total)]
      && Filter(r.skillPoints, NotComma) == NatToString(points)
      && r.communityRank[0] == '#' && DigitsValue(r.communityRank[1..]) == rank
  {
    CapitalizeReadsBack(level);
    CountsSplit(NatToString(completed), NatToString(total));
    GroupThousandsDigits(points);
    RankReadsBack(rank);
  }

  lemma CapitalizeReadsBack(level: string)
    ensures Lower(Capitalize(level)) == Lower(level)
    ensures level != [] ==> Capitalize(level)[0] == UpperChar(level[0]) && Capitalize(level)[1..] == level[1..]
  {
    if level != [] {
      var c := level[0];
      assert LowerChar(UpperChar(c)) == LowerChar(c);
      assert Lower(Capitalize(level))[0] == Lower(level)[0];
    }
  }

  lemma CountsSplit(a: string, b: string)
    requires forall i :: 0 <= i < |a| ==> '0' <= a[i] <= '9'
    requires forall i :: 0 <= i < |b| ==> '0' <= b[i] <= '9'
    ensures Split(a + "/" + b, '/') == [a, b]
  {
    assert forall i :: 0 <= i < |a| ==> a[i] != '/';
    assert forall i :: 0 <= i < |b| ==> b[i] != '/';
    SplitAtSeparator(a, b, '/');
    SplitNoSeparator(b, '/');
  }

  lemma RankReadsBack(rank: nat)
    ensures ("#" + NatToString(rank))[0] == '#' && DigitsValue(("#" + NatToString(rank))[1..]) == rank
  {
    assert ("#" + NatToString(rank))[1..] == NatToString(rank);
    NatToStringValue(rank);
  }

  // ---------------------------------------------------------------------
  // Assessment walk-through

  datatype Assessment = Assessment(name: string, questions: int)

  datatype SubmitOutcome = NextQuestion | Completed | NoAssessment

  class SkillAssessment {
    var assessments: seq<Assessment>
    var currentAssessment: Option<Assessment>
    var currentQuestion: nat
    var answers: seq<string>

    /** One answer recorded per question asked. */
    predicate Valid()
      reads this
    {
      |answers| == currentQuestion
    }

    constructor(assessments: seq<Assessment>)
      ensures Valid()
      ensures this.assessments == assessments && currentAssessment == None
      ensures currentQuestion == 0 && answers == []
    {
      this.assessments := assessments;
      currentAssessment := None;
      currentQuestion := 0;
      answers := [];
    }

    /** Take up the first assessment, if there is any. */
    method Start()
      modifies this
      ensures assessments == old(assessments) && currentQuestion == old(currentQuestion) && answers == old(answers)
      ensures currentAssessment == if assessments != [] then Some(assessments[0]) else old(currentAssessment)
    {
      if |assessments| > 0 {
        currentAssessment := Some(assessments[0]);
      }
    }

    /** Record an answer and move on: either to the next question or, once
        the question count is reached, to completion. Without an assessment
        under way the answer is still recorded before the lookup fails. */
    method SubmitAnswer(answer: string) returns (outcome: SubmitOutcome)
      requires Valid()
      modifies this
      ensures Valid()
      ensures assessments == old(assessments) && currentAssessment == old(currentAssessment)
      ensures answers == old(answers) + [answer] && currentQuestion == old(currentQuestion) + 1
      ensures outcome == NoAssessment <==> currentAssessment.None?
      ensures outcome == Completed <==>
        currentAssessment.Some? && currentQuestion >= currentAssessment.value.questions
      ensures (old(currentQuestion) < (if currentAssessment.Some? then currentAssessment.value.questions else 0)
               && outcome == Completed) ==> currentQuestion == currentAssessment.value.questions
    {
      answers := answers + [answer];
      currentQuestion := currentQuestion + 1;
      match currentAssessment {
        case None => outcome := NoAssessment;
        case Some(a) =>
          if currentQuestion < a.questions {
            outcome := NextQuestion;
          } else {
            outcome := Completed;
          }
      }
    }
  }
}
