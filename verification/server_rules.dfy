/**
 * The pure rules of the backend (backend/server.py): the records it stores,
 * quiz grading, course progress and the completion bonus, the mentor query
 * and the leaderboard selection. The endpoints that change the stored
 * collections are in module ServerState.
 */
module ServerRules {
  import opened Common

  type UserId = string
  type CourseId = string
  type ModuleId = string

  /** A user document; the password hash and the streak fields play no part in these rules. */
  datatype User = User(
    id: UserId,
    name: string,
    coins: int,
    skillsCanTeach: seq<string>,
    totalCoursesCompleted: int,
    totalSessionsCompleted: int)

  /** A quiz question, reduced to its `correct_answer` entry (absent when the key is missing). */
  datatype Question = Question(correctAnswer: Option<string>)

  datatype CourseModule = CourseModule(id: ModuleId, questions: seq<Question>)

  /** A course; `coinReward` is absent when the document has no `coin_reward` key. */
  datatype Course = Course(id: CourseId, modules: seq<CourseModule>, coinReward: Option<int>)

  /** One submitted answer dictionary, reduced to its `answer` entry. */
  datatype Answer = Answer(answer: Option<string>)

  /** Coins credited for the first pass of a module. */
  const CoinsPerModule: int := 20
  /** Reward of a course whose document has no `coin_reward`. */
  const DefaultCoinReward: int := 100
  /** Pass mark of a quiz, in percent. */
  const PassMark: real := 70.0
  /** Number of users a leaderboard lists. */
  const LeaderboardSize: nat := 50
  /** Number of documents a mentor query returns at most (`to_list(100)`). */
  const QueryLimit: nat := 100

  function Min(a: int, b: int): int {
    if a <= b then a else b
  }

  function Max(a: int, b: int): int {
    if a >= b then a else b
  }

  predicate NoDuplicates<T(==)>(s: seq<T>) {
    forall i, j :: 0 <= i < j < |s| ==> s[i] != s[j]
  }

  // ---------------------------------------------------------------------
  // Quiz grading (submit_quiz)
  // ---------------------------------------------------------------------

  /** The first module with the given id, as Python's `next(..., None)` finds it. */
  function FindModule(modules: seq<CourseModule>, id: ModuleId): (r: Option<CourseModule>)
    ensures r.None? <==> forall i :: 0 <= i < |modules| ==> modules[i].id != id
    ensures r.Some? ==> exists i :: 0 <= i < |modules| && modules[i] == r.value
                                    && r.value.id == id
                                    && forall j :: 0 <= j < i ==> modules[j].id != id
  {
    if modules == [] then None
    else if modules[0].id == id then Some(modules[0])
    else
      var r := FindModule(modules[1..], id);
      assert forall i :: 1 <= i < |modules| ==> modules[1..][i - 1] == modules[i];
      r
  }

  /** Answer `i` counts when a question `i` exists and the two entries are equal (two absent entries are equal). */
  predicate IsCorrect(questions: seq<Question>, answers: seq<Answer>, i: nat) {
    i < |answers| && i < |questions| && answers[i].answer == questions[i].correctAnswer
  }

  /** The number of correct answers among the first `|answers|` submitted. */
  function CorrectCount(questions: seq<Question>, answers: seq<Answer>): (c: nat)
    ensures c <= |answers| && c <= |questions|
  {
    if answers == [] then 0
    else
      var n := |answers| - 1;
      var c := CorrectCount(questions, answers[..n]);
      assert forall i :: 0 <= i < n ==> answers[..n][i] == answers[i];
      c + (if n < |questions| && answers[n].answer == questions[n].correctAnswer then 1 else 0)
  }

  /** The count agrees with counting `IsCorrect` index by index. */
  lemma {:induction false} CorrectCountIsCount(questions: seq<Question>, answers: seq<Answer>)
    ensures CorrectCount(questions, answers) == |set i | 0 <= i < |answers| && IsCorrect(questions, answers, i)|
  {
    var S := set i | 0 <= i < |answers| && IsCorrect(questions, answers, i);
    if answers != [] {
      var n := |answers| - 1;
      var p := answers[..n];
      CorrectCountIsCount(questions, p);
      var T := set i | 0 <= i < n && IsCorrect(questions, p, i);
      assert forall i :: 0 <= i < n ==> (IsCorrect(questions, p, i) <==> IsCorrect(questions, answers, i));
      assert forall i :: i in T ==> i in S;
      assert forall i :: i in S && i != n ==> i in T;
      assert n !in T;
      if IsCorrect(questions, answers, n) {
        assert S == T + {n};
      } else {
        assert S == T;
      }
    }
  }

  /** Answers beyond the number of questions are ignored. */
  lemma {:induction false} ExtraAnswersIgnored(questions: seq<Question>, answers: seq<Answer>)
    requires |answers| > |questions|
    ensures CorrectCount(questions, answers) == CorrectCount(questions, answers[..|questions|])
  {
    var n := |answers| - 1;
    if n > |questions| {
      ExtraAnswersIgnored(questions, answers[..n]);
      assert answers[..n][..|questions|] == answers[..|questions|];
    } else {
      assert answers[..n] == answers[..|questions|];
    }
  }

  /** The grading loop of submit_quiz: counts the answers equal to the question's correct answer. */
  method CountCorrect(questions: seq<Question>, answers: seq<Answer>) returns (correct: nat)
    ensures correct == CorrectCount(questions, answers)
  {
    correct := 0;
    var i := 0;
    while i < |answers|
      invariant 0 <= i <= |answers|
      invariant correct == CorrectCount(questions, answers[..i])
    {
      if i < |questions| {
        if answers[i].answer == questions[i].correctAnswer {
          correct := correct + 1;
        }
      }
      assert answers[..i + 1][..i] == answers[..i];
      i := i + 1;
    }
    assert answers[..i] == answers;
  }

  /** The score in percent; a module without questions scores 0. */
  function Score(correct: nat, total: nat): (score: real)
    requires correct <= total
    ensures 0.0 <= score <= 100.0
    ensures total == 0 ==> score == 0.0
    ensures total > 0 && correct == total ==> score == 100.0
  {
    if total == 0 then 0.0 else (correct as real / total as real) * 100.0
  }

  predicate Passed(score: real) {
    score >= PassMark
  }

  /** The score scaled back by the number of questions is 100 times the number correct. */
  lemma ScoreScaled(correct: nat, total: nat)
    requires correct <= total && total > 0
    ensures Score(correct, total) * total as real == 100.0 * correct as real
  {
    var q := correct as real / total as real;
    assert q * total as real == correct as real;
    assert (q * 100.0) * total as real == 100.0 * (q * total as real);
  }

  lemma ScaleByPositive(x: real, y: real, t: real)
    requires t > 0.0
    ensures x >= y <==> x * t >= y * t
  {
    if x >= y {
      assert (x - y) * t >= 0.0;
    } else {
      assert (y - x) * t > 0.0;
    }
  }

  /** A quiz passes iff the module has a question and at least 70% of the questions are answered correctly. */
  lemma PassedIff(correct: nat, total: nat)
    requires correct <= total
    ensures Passed(Score(correct, total)) <==> total > 0 && 100 * correct >= 70 * total
  {
    if total > 0 {
      var score := Score(correct, total);
      var t := total as real;
      ScoreScaled(correct, total);
      ScaleByPositive(score, PassMark, t);
      var scaled, bar := score * t, PassMark * t;
      var hundredCorrect, seventyTotal := 100 * correct, 70 * total;
      assert Passed(score) <==> scaled >= bar;
      assert scaled == hundredCorrect as real;
      assert bar == seventyTotal as real;
    } else {
      assert Score(correct, total) == 0.0;
    }
  }

  // ---------------------------------------------------------------------
  // Progress and completion bonus
  // ---------------------------------------------------------------------

  /** The stored progress of an enrollment, in percent. */
  function Progress(completed: nat, moduleCount: nat): (p: real)
    requires moduleCount > 0
    ensures p >= 0.0
  {
    (completed as real / moduleCount as real) * 100.0
  }

  /** Progress reaches 100% exactly when as many modules are completed as the course has. */
  lemma ProgressFullIff(completed: nat, moduleCount: nat)
    requires moduleCount > 0
    ensures Progress(completed, moduleCount) >= 100.0 <==> completed >= moduleCount
  {
    var q := completed as real / moduleCount as real;
    assert q * moduleCount as real == completed as real;
    if q * 100.0 >= 100.0 {
      assert q >= 1.0;
      assert q * moduleCount as real >= moduleCount as real;
    } else {
      assert q < 1.0;
      assert q * moduleCount as real < moduleCount as real;
    }
  }

  /** `course.get('coin_reward', 100)`. */
  function CoinReward(course: Course): (reward: int)
    ensures course.coinReward.None? ==> reward == DefaultCoinReward
    ensures course.coinReward.Some? ==> reward == course.coinReward.value
  {
    course.coinReward.GetOr(DefaultCoinReward)
  }

  /** The completion bonus: what is left of the course reward after the module credits. */
  function CompletionBonus(course: Course, coinsEarned: int): (bonus: int)
    ensures coinsEarned + bonus == CoinReward(course)
  {
    CoinReward(course) - coinsEarned
  }

  // ---------------------------------------------------------------------
  // get_mentors
  // ---------------------------------------------------------------------

  /** Python truthiness of the optional `skill` query parameter. */
  predicate Truthy(skill: Option<string>) {
    skill.Some? && skill.value != ""
  }

  /**
   * The Mongo filter of get_mentors: users teaching the skill when one is
   * given, otherwise users whose `skills_can_teach` is present and non-empty.
   */
  predicate IsMentorMatch(u: User, skill: Option<string>) {
    if Truthy(skill) then skill.value in u.skillsCanTeach else u.skillsCanTeach != []
  }

  /** All users matching the mentor filter, in collection order. */
  function MatchingMentors(users: seq<User>, skill: Option<string>): (r: seq<User>)
    ensures |r| <= |users|
    ensures forall u :: u in r <==> u in users && IsMentorMatch(u, skill)
  {
    if users == [] then []
    else
      var rest := MatchingMentors(users[1..], skill);
      assert forall u :: u in users <==> u == users[0] || u in users[1..];
      if IsMentorMatch(users[0], skill) then [users[0]] + rest else rest
  }

  /** get_mentors: the first 100 matching users. */
  function GetMentors(users: seq<User>, skill: Option<string>): (r: seq<User>)
    ensures |r| <= QueryLimit
    ensures forall u :: u in r ==> u in users && IsMentorMatch(u, skill)
    ensures |MatchingMentors(users, skill)| <= QueryLimit ==>
              forall u :: u in users && IsMentorMatch(u, skill) ==> u in r
    ensures |r| == Min(QueryLimit, |MatchingMentors(users, skill)|) && r == MatchingMentors(users, skill)[..|r|]
  {
    var all := MatchingMentors(users, skill);
    var r := all[..Min(QueryLimit, |all|)];
    assert forall u :: u in r ==> u in all;
    r
  }

  // ---------------------------------------------------------------------
  // get_leaderboard
  // ---------------------------------------------------------------------

  /** The projection get_leaderboard returns for each user. */
  datatype LeaderRow = LeaderRow(
    id: UserId,
    name: string,
    coins: int,
    totalCoursesCompleted: int,
    totalSessionsCompleted: int)

  function RowOf(u: User): LeaderRow {
    LeaderRow(u.id, u.name, u.coins, u.totalCoursesCompleted, u.totalSessionsCompleted)
  }

  function RowsOf(users: seq<User>): (rows: seq<LeaderRow>)
    ensures |rows| == |users|
    ensures forall i :: 0 <= i < |users| ==> rows[i] == RowOf(users[i])
  {
    if users == [] then [] else [RowOf(users[0])] + RowsOf(users[1..])
  }

  /** Rows in order of non-increasing coins (`sort('coins', -1)`). */
  predicate SortedByCoins(rows: seq<LeaderRow>) {
    forall i, j :: 0 <= i < j < |rows| ==> rows[i].coins >= rows[j].coins
  }

  /** A row with at least the coins of every row of a sorted sequence can go in front of it. */
  lemma ConsSorted(a: LeaderRow, rest: seq<LeaderRow>)
    requires SortedByCoins(rest)
    requires forall x :: x in rest ==> x.coins <= a.coins
    ensures SortedByCoins([a] + rest)
  {
    var r := [a] + rest;
    forall i, j | 0 <= i < j < |r| ensures r[i].coins >= r[j].coins {
      assert r[j] == rest[j - 1];
      if i > 0 {
        assert r[i] == rest[i - 1];
      } else {
        assert rest[j - 1] in rest;
      }
    }
  }

  /** Inserts a row after every row with at least as many coins. */
  function InsertByCoins(row: LeaderRow, sorted: seq<LeaderRow>): (r: seq<LeaderRow>)
    requires SortedByCoins(sorted)
    ensures |r| == |sorted| + 1
    ensures forall x :: x in r ==> x == row || x in sorted
    ensures SortedByCoins(r)
    ensures multiset(r) == multiset(sorted) + multiset{row}
  {
    if sorted == [] then [row]
    else if sorted[0].coins < row.coins then
      ConsSorted(row, sorted);
      [row] + sorted
    else
      var head := sorted[0];
      var tail := sorted[1..];
      assert sorted == [head] + tail;
      var rest := InsertByCoins(row, tail);
      assert forall x :: x in tail ==> x.coins <= head.coins;
      ConsSorted(head, rest);
      assert multiset([head] + rest) == multiset{head} + multiset(rest);
      [head] + rest
  }

  /** Sorts rows by non-increasing coins, keeping every row. */
  function SortByCoins(rows: seq<LeaderRow>): (r: seq<LeaderRow>)
    ensures |r| == |rows|
    ensures SortedByCoins(r)
    ensures multiset(r) == multiset(rows)
  {
    if rows == [] then []
    else
      assert rows == [rows[0]] + rows[1..];
      InsertByCoins(rows[0], SortByCoins(rows[1..]))
  }

  /** In a sorted sequence, nothing after the first k rows has more coins than a row among them. */
  lemma SortedPrefixIsTop(s: seq<LeaderRow>, k: nat)
    requires SortedByCoins(s) && k <= |s|
    ensures multiset(s[..k]) <= multiset(s)
    ensures forall x, y :: x in s[..k] && y in multiset(s) - multiset(s[..k]) ==> y.coins <= x.coins
  {
    assert s == s[..k] + s[k..];
    assert multiset(s) == multiset(s[..k]) + multiset(s[k..]);
    forall x, y | x in s[..k] && y in multiset(s) - multiset(s[..k])
      ensures y.coins <= x.coins
    {
      assert y in multiset(s[k..]);
      assert y in s[k..];
      var i :| 0 <= i < k && s[..k][i] == x;
      var j :| 0 <= j < |s| - k && s[k..][j] == y;
      assert s[i] == x && s[k + j] == y;
    }
  }

  /**
   * get_leaderboard: the 50 users with the most coins, richest first. No
   * user left out has more coins than a user listed.
   */
  function Leaderboard(users: seq<User>): (r: seq<LeaderRow>)
    ensures |r| == Min(LeaderboardSize, |users|)
    ensures SortedByCoins(r)
    ensures multiset(r) <= multiset(RowsOf(users))
    ensures forall x, y :: x in r && y in multiset(RowsOf(users)) - multiset(r) ==> y.coins <= x.coins
  {
    var s := SortByCoins(RowsOf(users));
    var k := Min(LeaderboardSize, |users|);
    SortedPrefixIsTop(s, k);
    var r := s[..k];
    r
  }
}
