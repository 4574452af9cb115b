/**
 * frontend/src/pages/CourseDetail.js: loading a course page (auto-enrolling
 * on first visit), the module lock order, the quiz dialog and the answers it
 * sends.
 */
module CourseDetail {
  import opened Common
  import opened ServerRules
  import opened ServerState

  // ---------------------------------------------------------------------
  // Module list
  // ---------------------------------------------------------------------

  /** `enrollment?.completed_modules.includes(id)`: false when there is no enrollment. */
  predicate IsCompleted(enrollment: Option<Enrollment>, moduleId: ModuleId) {
    enrollment.Some? && moduleId in enrollment.value.completedModules
  }

  /** A module is locked unless it is the first or the one before it is completed. */
  predicate IsLocked(enrollment: Option<Enrollment>, modules: seq<CourseModule>, index: nat)
    requires index < |modules|
  {
    index > 0 && !IsCompleted(enrollment, modules[index - 1].id)
  }

  /**
   * When the completed modules are exactly the first `done` ones, the
   * modules up to and including the next one are open and the rest locked.
   */
  lemma LockedIffBeyondNext(e: Enrollment, modules: seq<CourseModule>, done: nat)
    requires done <= |modules|
    requires forall j :: 0 <= j < |modules| ==> (modules[j].id in e.completedModules <==> j < done)
    ensures forall i :: 0 <= i < |modules| ==> (IsLocked(Some(e), modules, i) <==> i > done)
  {
  }

  /** The "Take Quiz" button is disabled once the module is completed. */
  predicate TakeQuizDisabled(enrollment: Option<Enrollment>, active: CourseModule) {
    IsCompleted(enrollment, active.id)
  }

  /** `Object.keys(quizAnswers).length !== activeModule?.questions.length`: disabled without an active module. */
  predicate SubmitDisabled(answers: map<nat, string>, active: Option<CourseModule>) {
    active.None? || |answers.Keys| != |active.value.questions|
  }

  // ---------------------------------------------------------------------
  // The answers sent
  // ---------------------------------------------------------------------

  predicate IsLeast(k: nat, keys: set<nat>) {
    k in keys && forall j :: j in keys ==> k <= j
  }

  lemma {:induction false} LeastExists(keys: set<nat>)
    requires keys != {}
    ensures exists k :: IsLeast(k, keys)
    decreases |keys|
  {
    var x :| x in keys;
    if keys - {x} == {} {
      assert keys == {x};
      assert IsLeast(x, keys);
    } else {
      LeastExists(keys - {x});
      var m :| IsLeast(m, keys - {x});
      assert forall j :: j in keys ==> j == x || j in keys - {x};
      if x < m {
        assert IsLeast(x, keys);
      } else {
        assert IsLeast(m, keys);
      }
    }
  }

  /** The keys of an object with integer keys in the order `Object.entries` lists them: ascending. */
  function KeysAscending(keys: set<nat>): (ks: seq<nat>)
    ensures |ks| == |keys|
    ensures forall k :: k in ks <==> k in keys
    ensures forall i, j :: 0 <= i < j < |ks| ==> ks[i] < ks[j]
    decreases |keys|
  {
    if keys == {} then []
    else
      LeastExists(keys);
      var k :| IsLeast(k, keys);
      var rest := KeysAscending(keys - {k});
      PrependLeast(k, keys, rest);
      [k] + rest
  }

  /** Putting the least key in front of the others in ascending order lists all of them in ascending order. */
  lemma PrependLeast(k: nat, keys: set<nat>, rest: seq<nat>)
    requires IsLeast(k, keys)
    requires |rest| == |keys - {k}|
    requires forall x :: x in rest <==> x in keys - {k}
    requires forall i, j :: 0 <= i < j < |rest| ==> rest[i] < rest[j]
    ensures |[k] + rest| == |keys|
    ensures forall x :: x in [k] + rest <==> x in keys
    ensures forall i, j :: 0 <= i < j < |[k] + rest| ==> ([k] + rest)[i] < ([k] + rest)[j]
  {
    var ks := [k] + rest;
    assert forall i :: 1 <= i < |ks| ==> ks[i] == rest[i - 1] && ks[i] in keys - {k};
  }

  /** The keys below `k`: their number is the place of `k` in ascending order. */
  function KeysBelow(keys: set<nat>, k: nat): set<nat> {
    set j | j in keys && j < k
  }

  /** The keys below a key `k` are the least key and the other keys below `k`. */
  lemma BelowWithLeast(keys: set<nat>, m: nat, k: nat)
    requires IsLeast(m, keys) && m < k
    ensures |KeysBelow(keys, k)| == |KeysBelow(keys - {m}, k)| + 1
  {
    var below, others := KeysBelow(keys, k), KeysBelow(keys - {m}, k);
    assert below == others + {m};
    assert m !in others;
  }

  /** Each key is listed at its rank, the number of keys below it. */
  lemma {:induction false} KeyAtRank(keys: set<nat>, k: nat)
    requires k in keys
    ensures |KeysBelow(keys, k)| < |KeysAscending(keys)|
    ensures KeysAscending(keys)[|KeysBelow(keys, k)|] == k
    decreases |keys|
  {
    var ks := KeysAscending(keys);
    var m := ks[0];
    var rest := keys - {m};
    assert IsLeast(m, keys);
    assert ks[1..] == KeysAscending(rest);
    if k == m {
      assert KeysBelow(keys, k) == {};
    } else {
      KeyAtRank(rest, k);
      BelowWithLeast(keys, m, k);
      var r := |KeysBelow(rest, k)|;
      assert ks[r + 1] == ks[1..][r];
    }
  }

  /** The answers chosen for the questions `ks`, in that order. */
  function AnswersFor(quizAnswers: map<nat, string>, ks: seq<nat>): (answers: seq<Answer>)
    requires forall i :: 0 <= i < |ks| ==> ks[i] in quizAnswers
    ensures |answers| == |ks|
    ensures forall i :: 0 <= i < |ks| ==> answers[i] == Answer(Some(quizAnswers[ks[i]]))
  {
    seq(|ks|, i requires 0 <= i < |ks| => Answer(Some(quizAnswers[ks[i]])))
  }

  /** The answer chosen for each question `k` is at the place given by the number of chosen questions before `k`. */
  predicate ListedByRank(quizAnswers: map<nat, string>, answers: seq<Answer>) {
    forall k :: k in quizAnswers ==>
      |KeysBelow(quizAnswers.Keys, k)| < |answers| && answers[|KeysBelow(quizAnswers.Keys, k)|] == Answer(Some(quizAnswers[k]))
  }

  /** Answers listed by ascending key put the answer for each key at that key's rank. */
  lemma AnswersAtRanks(quizAnswers: map<nat, string>, answers: seq<Answer>)
    requires |answers| == |KeysAscending(quizAnswers.Keys)|
    requires forall i :: 0 <= i < |answers| ==>
      KeysAscending(quizAnswers.Keys)[i] in quizAnswers && answers[i] == Answer(Some(quizAnswers[KeysAscending(quizAnswers.Keys)[i]]))
    ensures ListedByRank(quizAnswers, answers)
  {
    forall k | k in quizAnswers
      ensures |KeysBelow(quizAnswers.Keys, k)| < |answers| && answers[|KeysBelow(quizAnswers.Keys, k)|] == Answer(Some(quizAnswers[k]))
    {
      KeyAtRank(quizAnswers.Keys, k);
    }
  }

  /**
   * `Object.entries(quizAnswers).map(([index, answer]) => ({ answer }))`: one
   * answer per chosen question, the choice for question `k` at the place given
   * by the number of chosen questions before `k`.
   */
  function AnswersInKeyOrder(quizAnswers: map<nat, string>): (answers: seq<Answer>)
    ensures |answers| == |quizAnswers.Keys|
    ensures ListedByRank(quizAnswers, answers)
  {
    var ks := KeysAscending(quizAnswers.Keys);
    var answers := AnswersFor(quizAnswers, ks);
    AnswersAtRanks(quizAnswers, answers);
    answers
  }

  /** The question indices 0 .. n-1. */
  function Indices(n: nat): (s: set<nat>)
    ensures |s| == n
    ensures forall k: nat :: k in s <==> k < n
  {
    if n == 0 then {} else
      var s := Indices(n - 1);
      assert n - 1 !in s;
      var r := s + {n - 1};
      assert forall k: nat :: k < n ==> k in r by {
        forall k: nat | k < n ensures k in r {
          if k < n - 1 {
            assert k in s;
          }
        }
      }
      r
  }

  lemma {:induction false} AscendingAtLeastIndex(ks: seq<nat>, i: nat)
    requires forall a, b :: 0 <= a < b < |ks| ==> ks[a] < ks[b]
    requires i < |ks|
    ensures ks[i] >= i
  {
    if i > 0 {
      AscendingAtLeastIndex(ks, i - 1);
    }
  }

  lemma {:induction false} AscendingAtMostBound(ks: seq<nat>, i: nat, n: nat)
    requires forall a, b :: 0 <= a < b < |ks| ==> ks[a] < ks[b]
    requires forall a :: 0 <= a < |ks| ==> ks[a] < n
    requires i < |ks|
    ensures ks[i] + (|ks| - i) <= n
    decreases |ks| - i
  {
    if i + 1 < |ks| {
      AscendingAtMostBound(ks, i + 1, n);
    }
  }

  /** An ascending sequence of n numbers below n is 0, 1, .., n-1. */
  lemma DenseAscending(ks: seq<nat>, n: nat)
    requires forall a, b :: 0 <= a < b < |ks| ==> ks[a] < ks[b]
    requires forall a :: 0 <= a < |ks| ==> ks[a] < n
    requires |ks| == n
    ensures forall i :: 0 <= i < n ==> ks[i] == i
  {
    forall i | 0 <= i < n ensures ks[i] == i {
      AscendingAtLeastIndex(ks, i);
      AscendingAtMostBound(ks, i, n);
    }
  }

  /** The keys 0 .. n-1 in ascending order are 0, 1, .., n-1. */
  lemma KeysOfIndices(n: nat)
    ensures |KeysAscending(Indices(n))| == n
    ensures forall i :: 0 <= i < n ==> KeysAscending(Indices(n))[i] == i
  {
    var ks := KeysAscending(Indices(n));
    forall a | 0 <= a < |ks| ensures ks[a] < n {
      assert ks[a] in ks;
    }
    DenseAscending(ks, n);
  }

  /**
   * When the chosen answers are exactly those of questions 0 .. n-1, the
   * i-th answer sent is the choice made for question i.
   */
  lemma AnswersMatchQuestions(quizAnswers: map<nat, string>, n: nat)
    requires quizAnswers.Keys == Indices(n)
    ensures |AnswersInKeyOrder(quizAnswers)| == n
    ensures forall i :: 0 <= i < n ==> AnswersInKeyOrder(quizAnswers)[i] == Answer(Some(quizAnswers[i]))
  {
    KeysOfIndices(n);
  }

  // ---------------------------------------------------------------------
  // Loading the page
  // ---------------------------------------------------------------------

  /** `enrollRes.data.find(e => e.course_id === id)`: the first enrollment in this course. */
  function FindEnrollment(es: seq<Enrollment>, courseId: CourseId): (r: Option<Enrollment>)
    ensures r.None? <==> forall i :: 0 <= i < |es| ==> es[i].courseId != courseId
    ensures r.Some? ==> exists i :: 0 <= i < |es| && es[i] == r.value
                                    && r.value.courseId == courseId
                                    && forall j :: 0 <= j < i ==> es[j].courseId != courseId
  {
    if es == [] then None
    else if es[0].courseId == courseId then Some(es[0])
    else
      var r := FindEnrollment(es[1..], courseId);
      assert forall i :: 1 <= i < |es| ==> es[1..][i - 1] == es[i];
      r
  }

  /** The responses one load would get: the profile, the course, the user's enrollments, and the enroll request. */
  datatype LoadResponses = LoadResponses(
    user: Fetch<User>,
    course: Fetch<Course>,
    enrollments: Fetch<seq<Enrollment>>,
    enroll: Fetch<Enrollment>)

  /** What the page shows of the server's data. */
  datatype PageData = PageData(user: Option<User>, course: Option<Course>, enrollment: Option<Enrollment>)

  /** The outcome of one load: the new data, the toasts shown, and how many enroll requests were sent. */
  datatype LoadOutcome = LoadOutcome(data: PageData, toasts: seq<Toast>, enrollRequests: nat)

  const LoadFailed: string := "Failed to load course"
  const Enrolled: string := "Enrolled successfully!"
  const EnrollFailed: string := "Enrollment failed"

  /** `fetchData`, with `handleEnroll` when the user is not yet enrolled in the course. */
  function LoadEffect(courseId: CourseId, r: LoadResponses, before: PageData): (out: LoadOutcome)
    ensures out.enrollRequests <= 1 && |out.toasts| <= 1
    ensures out.enrollRequests == 1 <==>
              && r.user.Fetched? && r.course.Fetched? && r.enrollments.Fetched?
              && FindEnrollment(r.enrollments.value, courseId).None?
    ensures r.user.FetchFailed? || r.course.FetchFailed? ==> out.data == before && out.toasts == [Error(LoadFailed)]
    ensures r.user.Fetched? && r.course.Fetched? ==>
              out.data.user == Some(r.user.value) && out.data.course == Some(r.course.value)
    ensures out.data.enrollment.Some? && out.data.enrollment != before.enrollment ==>
              out.data.enrollment.value.courseId == courseId || out.enrollRequests == 1
    ensures r.user.Fetched? && r.course.Fetched? && r.enrollments.FetchFailed? ==>
              out.data.enrollment == before.enrollment && out.toasts == [Error(LoadFailed)]
    ensures r.user.Fetched? && r.course.Fetched? && r.enrollments.Fetched? ==>
              var found := FindEnrollment(r.enrollments.value, courseId);
              && (found.Some? ==> out.data.enrollment == found && out.toasts == [])
              && (found.None? && r.enroll.Fetched? ==>
                    out.data.enrollment == Some(r.enroll.value) && out.toasts == [Success(Enrolled)])
              && (found.None? && r.enroll.FetchFailed? ==>
                    out.data.enrollment.None? && out.toasts == [Error(EnrollFailed)])
  {
    if r.user.FetchFailed? || r.course.FetchFailed? then
      LoadOutcome(before, [Error(LoadFailed)], 0)
    else
      var loaded := before.(user := Some(r.user.value), course := Some(r.course.value));
      if r.enrollments.FetchFailed? then
        LoadOutcome(loaded, [Error(LoadFailed)], 0)
      else
        var existing := FindEnrollment(r.enrollments.value, courseId);
        if existing.Some? then
          LoadOutcome(loaded.(enrollment := existing), [], 0)
        else if r.enroll.Fetched? then
          LoadOutcome(loaded.(enrollment := Some(r.enroll.value)), [Success(Enrolled)], 1)
        else
          LoadOutcome(loaded.(enrollment := None), [Error(EnrollFailed)], 1)
  }

  /** A visit to a course the user has no enrollment in enrolls them, exactly once. */
  lemma FirstVisitEnrolls(courseId: CourseId, r: LoadResponses, before: PageData)
    requires r.user.Fetched? && r.course.Fetched? && r.enrollments.Fetched?
    requires forall e :: e in r.enrollments.value ==> e.courseId != courseId
    ensures LoadEffect(courseId, r, before).enrollRequests == 1
    ensures r.enroll.Fetched? ==> LoadEffect(courseId, r, before).data.enrollment == Some(r.enroll.value)
  {
    assert forall i :: 0 <= i < |r.enrollments.value| ==> r.enrollments.value[i] in r.enrollments.value;
  }

  /** A later visit finds the enrollment and sends no enroll request. */
  lemma ReturnVisitKeepsEnrollment(courseId: CourseId, r: LoadResponses, before: PageData, e: Enrollment)
    requires r.user.Fetched? && r.course.Fetched? && r.enrollments.Fetched?
    requires e in r.enrollments.value && e.courseId == courseId
    ensures LoadEffect(courseId, r, before).enrollRequests == 0
    ensures LoadEffect(courseId, r, before).data.enrollment.Some?
    ensures LoadEffect(courseId, r, before).data.enrollment.value.courseId == courseId
    ensures LoadEffect(courseId, r, before).data.enrollment == FindEnrollment(r.enrollments.value, courseId)
    ensures LoadEffect(courseId, r, before).toasts == []
  {
    var i :| 0 <= i < |r.enrollments.value| && r.enrollments.value[i] == e;
  }

  // ---------------------------------------------------------------------
  // Quiz outcome texts
  // ---------------------------------------------------------------------

  function PassedText(coinsEarned: int): string {
    "Quiz passed! Earned " + IntToString(coinsEarned) + " coins!"
  }

  function FailedText(score: real): string {
    "Score: " + IntToString(Round(score)) + "%. Need 70% to pass."
  }

  const SubmitFailed: string := "Quiz submission failed"

  // ---------------------------------------------------------------------
  // The page
  // ---------------------------------------------------------------------

  class CourseDetailPage {
    /** The course in the URL. */
    const courseId: CourseId
    var user: Option<User>
    var course: Option<Course>
    var enrollment: Option<Enrollment>
    var activeModule: Option<CourseModule>
    var showQuiz: bool
    /** The choice made for each question index. */
    var quizAnswers: map<nat, string>
    var loading: bool
    /** Every toast shown so far, oldest first. */
    var toasts: seq<Toast>
    /** The number of enroll requests sent. */
    var enrollRequests: nat
    /** Every quiz submission sent, oldest first. */
    var submissions: seq<QuizSubmission>

    function Data(): PageData
      reads this
    {
      PageData(user, course, enrollment)
    }

    constructor (id: CourseId)
      ensures courseId == id && loading
      ensures user.None? && course.None? && enrollment.None? && activeModule.None?
      ensures !showQuiz && quizAnswers == map[] && toasts == [] && enrollRequests == 0 && submissions == []
    {
      courseId := id;
      user, course, enrollment, activeModule := None, None, None, None;
      showQuiz, quizAnswers, loading := false, map[], true;
      toasts, enrollRequests, submissions := [], 0, [];
    }

    /** `fetchData`: always ends with the page no longer loading. */
    method Load(r: LoadResponses)
      modifies this
      ensures var out := LoadEffect(courseId, r, old(Data()));
        && Data() == out.data
        && toasts == old(toasts) + out.toasts
        && enrollRequests == old(enrollRequests) + out.enrollRequests
      ensures !loading
      ensures activeModule == old(activeModule) && showQuiz == old(showQuiz)
      ensures quizAnswers == old(quizAnswers) && submissions == old(submissions)
    {
      if r.user.FetchFailed? || r.course.FetchFailed? {
        toasts := toasts + [Error(LoadFailed)];
      } else {
        user := Some(r.user.value);
        course := Some(r.course.value);
        if r.enrollments.FetchFailed? {
          toasts := toasts + [Error(LoadFailed)];
        } else {
          var existing := FindEnrollment(r.enrollments.value, courseId);
          enrollment := existing;
          if existing.None? {
            enrollRequests := enrollRequests + 1;
            if r.enroll.Fetched? {
              enrollment := Some(r.enroll.value);
              toasts := toasts + [Success(Enrolled)];
            } else {
              toasts := toasts + [Error(EnrollFailed)];
            }
          }
        }
      }
      loading := false;
    }

    /** A click on module `index`: a locked module ignores it; the quiz answers are kept either way. */
    method ClickModule(index: nat)
      requires course.Some? && index < |course.value.modules|
      modifies this`activeModule
      ensures quizAnswers == old(quizAnswers)
      ensures IsLocked(enrollment, course.value.modules, index) ==> activeModule == old(activeModule)
      ensures !IsLocked(enrollment, course.value.modules, index) ==> activeModule == Some(course.value.modules[index])
    {
      if !IsLocked(enrollment, course.value.modules, index) {
        activeModule := Some(course.value.modules[index]);
      }
    }

    /** "Take Quiz": opens the dialog unless the module is already completed. */
    method OpenQuiz()
      requires activeModule.Some?
      modifies this`showQuiz
      ensures showQuiz == (old(showQuiz) || !TakeQuizDisabled(enrollment, activeModule.value))
    {
      if !TakeQuizDisabled(enrollment, activeModule.value) {
        showQuiz := true;
      }
    }

    /** Choosing `value` for question `index` of the active module. */
    method ChooseAnswer(index: nat, value: string)
      requires activeModule.Some? && index < |activeModule.value.questions|
      modifies this`quizAnswers
      ensures quizAnswers == old(quizAnswers)[index := value]
    {
      quizAnswers := quizAnswers[index := value];
    }

    /** Closing the dialog keeps the answers. */
    method CloseQuiz()
      modifies this`showQuiz
      ensures !showQuiz
    {
      showQuiz := false;
    }

    /**
     * `handleQuizSubmit`: sends the answers in key order; on a pass shows the
     * coins, reloads the page, closes the dialog and clears the answers; on a
     * fail shows the rounded score and keeps everything.
     */
    method SubmitQuiz(reply: Fetch<QuizResult>, reload: LoadResponses)
      modifies this
      ensures activeModule.None? ==>
                && toasts == old(toasts) + [Error(SubmitFailed)]
                && submissions == old(submissions)
      ensures old(activeModule).Some? ==>
                submissions == old(submissions)
                  + [QuizSubmission(old(activeModule).value.id, courseId, AnswersInKeyOrder(old(quizAnswers)))]
      ensures reply.FetchFailed? ==> toasts == old(toasts) + [Error(SubmitFailed)]
      ensures old(activeModule).Some? && reply.Fetched? && !reply.value.passed ==>
                && toasts == old(toasts) + [Error(FailedText(reply.value.score))]
                && quizAnswers == old(quizAnswers) && showQuiz == old(showQuiz)
      ensures old(activeModule).Some? && reply.Fetched? && reply.value.passed ==>
                && var out := LoadEffect(courseId, reload, old(Data()));
                && Data() == out.data
                && toasts == old(toasts) + [Success(PassedText(reply.value.coinsEarned))] + out.toasts
                && enrollRequests == old(enrollRequests) + out.enrollRequests
                && !showQuiz && quizAnswers == map[] && !loading
      ensures !(old(activeModule).Some? && reply.Fetched? && reply.value.passed) ==>
                && Data() == old(Data()) && enrollRequests == old(enrollRequests)
                && loading == old(loading) && quizAnswers == old(quizAnswers) && showQuiz == old(showQuiz)
      ensures activeModule == old(activeModule)
    {
      if activeModule.None? {
        toasts := toasts + [Error(SubmitFailed)];
        return;
      }
      var answers := AnswersInKeyOrder(quizAnswers);
      submissions := submissions + [QuizSubmission(activeModule.value.id, courseId, answers)];
      ShowResult(reply, reload);
    }

    /** The reply to a submission: a pass reloads the page and resets the dialog, a fail only shows the score. */
    method ShowResult(reply: Fetch<QuizResult>, reload: LoadResponses)
      modifies this
      ensures reply.FetchFailed? ==>
                && toasts == old(toasts) + [Error(SubmitFailed)]
                && Data() == old(Data()) && enrollRequests == old(enrollRequests)
                && loading == old(loading) && quizAnswers == old(quizAnswers) && showQuiz == old(showQuiz)
      ensures reply.Fetched? && !reply.value.passed ==>
                && toasts == old(toasts) + [Error(FailedText(reply.value.score))]
                && Data() == old(Data()) && enrollRequests == old(enrollRequests)
                && loading == old(loading) && quizAnswers == old(quizAnswers) && showQuiz == old(showQuiz)
      ensures reply.Fetched? && reply.value.passed ==>
                && var out := LoadEffect(courseId, reload, old(Data()));
                && Data() == out.data
                && toasts == old(toasts) + [Success(PassedText(reply.value.coinsEarned))] + out.toasts
                && enrollRequests == old(enrollRequests) + out.enrollRequests
                && !showQuiz && quizAnswers == map[] && !loading
      ensures activeModule == old(activeModule) && submissions == old(submissions)
    {
      if reply.FetchFailed? {
        toasts := toasts + [Error(SubmitFailed)];
        return;
      }
      var res := reply.value;
      if res.passed {
        toasts := toasts + [Success(PassedText(res.coinsEarned))];
        Load(reload);
        showQuiz := false;
        quizAnswers := map[];
      } else {
        toasts := toasts + [Error(FailedText(res.score))];
      }
    }
  }

  /**
   * Switching modules keeps the answers chosen for the previous one. When the
   * previous module's questions were all answered and the next module has as
   * many questions, Submit is enabled at once, and what it would send is the
   * previous module's choices, question by question.
   */
  lemma StaleAnswersEnableSubmit(answers: map<nat, string>, prev: CourseModule, next: CourseModule)
    requires answers.Keys == Indices(|prev.questions|)
    requires |next.questions| == |prev.questions|
    ensures !SubmitDisabled(answers, Some(next))
    ensures |AnswersInKeyOrder(answers)| == |next.questions|
    ensures forall i :: 0 <= i < |next.questions| ==> AnswersInKeyOrder(answers)[i] == Answer(Some(answers[i]))
  {
    AnswersMatchQuestions(answers, |prev.questions|);
  }
}
