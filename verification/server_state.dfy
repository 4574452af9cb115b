/**
 * The endpoints of backend/server.py that change stored state, as a class
 * whose fields are the database collections, keyed by id. Every request is
 * made on behalf of an authenticated user, given by id; a user id with no
 * user document is refused with 401, as get_current_user does.
 */
module ServerState {
  import opened Common
  import opened ServerRules

  /** The HTTP errors the endpoints raise. */
  datatype Status = Unauthorized | NotFound | BadRequest | Forbidden

  function Code(s: Status): (code: int)
    ensures 400 <= code < 500
  {
    match s
    case Unauthorized => 401
    case NotFound => 404
    case BadRequest => 400
    case Forbidden => 403
  }

  /** A response: its body, or the error raised. */
  datatype Reply<+T> = Ok(value: T) | Fail(status: Status)

  /** An enrollment document. Its id is a number here; the service draws a uuid4. */
  datatype Enrollment = Enrollment(
    id: nat,
    userId: UserId,
    courseId: CourseId,
    progress: real,
    completedModules: seq<ModuleId>,
    coinsEarned: int)

  datatype SessionStatus = Scheduled | Completed

  /** The four scores of a DetailedRating. */
  datatype Scores = Scores(overall: int, punctuality: int, knowledge: int, helpfulness: int)

  /**
   * A peer-to-peer session document. `rating` is set to None at booking and
   * never written again; a rating stores `scores` and `feedback` instead.
   */
  datatype Session = Session(
    id: nat,
    mentorId: UserId,
    learnerId: UserId,
    skill: string,
    scheduledAt: string,
    status: SessionStatus,
    rating: Option<int>,
    scores: Option<Scores>,
    feedback: Option<string>)

  datatype Reward = Reward(id: string, coinCost: int)

  datatype Redemption = Redemption(id: nat, userId: UserId, rewardId: string)

  datatype QuizAttempt = QuizAttempt(
    id: nat,
    userId: UserId,
    moduleId: ModuleId,
    courseId: CourseId,
    score: real,
    passed: bool)

  datatype QuizSubmission = QuizSubmission(moduleId: ModuleId, courseId: CourseId, answers: seq<Answer>)

  /** The body submit_quiz returns. */
  datatype QuizResult = QuizResult(score: real, passed: bool, coinsEarned: int)

  datatype Booking = Booking(mentorId: UserId, skill: string, scheduledAt: string)

  datatype DetailedRating = DetailedRating(sessionId: nat, scores: Scores, feedback: Option<string>)

  /** Coins a learner earns for rating a session. */
  const SessionCoins: int := 10

  /** A fresh enrollment: no progress, no module, no coins. */
  function NewEnrollment(id: nat, userId: UserId, courseId: CourseId): (e: Enrollment)
    ensures e.progress == 0.0 && e.completedModules == [] && e.coinsEarned == 0
    ensures e.userId == userId && e.courseId == courseId
  {
    Enrollment(id, userId, courseId, 0.0, [], 0)
  }

  /**
   * The enrollment after the first pass of a module: the module is recorded,
   * progress recomputed and the module's coins added to `coins_earned`.
   */
  function CreditModule(e: Enrollment, moduleId: ModuleId, moduleCount: nat): (r: Enrollment)
    requires moduleCount > 0
    ensures moduleId in r.completedModules && |r.completedModules| == |e.completedModules| + 1
    ensures NoDuplicates(e.completedModules) && moduleId !in e.completedModules ==> NoDuplicates(r.completedModules)
    ensures r.coinsEarned - e.coinsEarned == CoinsPerModule
    ensures r.progress >= 100.0 <==> |r.completedModules| >= moduleCount
    ensures r.completedModules == e.completedModules + [moduleId]
    ensures r.progress == Progress(|r.completedModules|, moduleCount)
    ensures r.id == e.id && r.userId == e.userId && r.courseId == e.courseId
  {
    var done := e.completedModules + [moduleId];
    ProgressFullIff(|done|, moduleCount);
    e.(completedModules := done,
       progress := Progress(|done|, moduleCount),
       coinsEarned := e.coinsEarned + CoinsPerModule)
  }

  /** Whether the completion bonus is paid after `credited`: the course is complete and the bonus positive. */
  predicate BonusPaid(course: Course, credited: Enrollment) {
    credited.progress >= 100.0 && CompletionBonus(course, credited.coinsEarned) > 0
  }

  /**
   * What finishing a course pays in all: once every module has been credited
   * at 20 coins, the module coins plus any bonus come to the course reward,
   * or to the module coins alone when those already exceed it.
   */
  lemma CourseCompletionPays(course: Course, credited: Enrollment)
    requires |credited.completedModules| == |course.modules| > 0
    requires credited.coinsEarned == CoinsPerModule * |credited.completedModules|
    requires credited.progress == Progress(|credited.completedModules|, |course.modules|)
    ensures credited.coinsEarned + (if BonusPaid(course, credited) then CompletionBonus(course, credited.coinsEarned) else 0)
            == Max(CoinReward(course), CoinsPerModule * |course.modules|)
  {
    ProgressFullIff(|credited.completedModules|, |course.modules|);
  }

  /**
   * The user after the first pass of a module of `course`: 20 coins, plus the
   * bonus and one more completed course exactly when the bonus is paid.
   */
  function PayForModule(u: User, course: Course, credited: Enrollment): (r: User)
    ensures r.coins == u.coins + CoinsPerModule + (if BonusPaid(course, credited) then CompletionBonus(course, credited.coinsEarned) else 0)
    ensures r.coins > u.coins
    ensures r.totalCoursesCompleted == u.totalCoursesCompleted + (if BonusPaid(course, credited) then 1 else 0)
    ensures r.id == u.id && r.name == u.name && r.skillsCanTeach == u.skillsCanTeach
    ensures r.totalSessionsCompleted == u.totalSessionsCompleted
  {
    var paid := u.(coins := u.coins + CoinsPerModule);
    if BonusPaid(course, credited) then
      paid.(coins := paid.coins + CompletionBonus(course, credited.coinsEarned),
            totalCoursesCompleted := paid.totalCoursesCompleted + 1)
    else
      paid
  }

  /** The facts about one stored enrollment that every endpoint keeps. */
  predicate EnrollmentOk(key: (UserId, CourseId), e: Enrollment, nextId: nat) {
    && e.userId == key.0 && e.courseId == key.1
    && e.id < nextId
    && NoDuplicates(e.completedModules)
    && e.coinsEarned == CoinsPerModule * |e.completedModules|
  }

  class Server {
    var users: map<UserId, User>
    /** Courses and rewards are only read by the modelled endpoints. */
    const courses: map<CourseId, Course>
    const rewards: map<string, Reward>
    /** At most one enrollment per (user, course): the pair is the key. */
    var enrollments: map<(UserId, CourseId), Enrollment>
    var sessions: map<nat, Session>
    var redemptions: seq<Redemption>
    var quizAttempts: seq<QuizAttempt>
    /** Source of fresh document ids. */
    var nextId: nat

    /**
     * The invariant: documents sit under their own ids, no balance is
     * negative, a module is credited at most once per enrollment, and the
     * stored `coins_earned` is exactly the module credits.
     */
    ghost predicate Valid()
      reads this
    {
      && (forall u :: u in users ==> users[u].id == u && users[u].coins >= 0)
      && (forall k :: k in enrollments ==> EnrollmentOk(k, enrollments[k], nextId))
      && (forall s :: s in sessions ==> sessions[s].id == s && s < nextId)
      && (forall c :: c in courses ==> courses[c].id == c)
      && (forall w :: w in rewards ==> rewards[w].id == w)
    }

    constructor (users0: map<UserId, User>, courses0: map<CourseId, Course>, rewards0: map<string, Reward>)
      requires forall u :: u in users0 ==> users0[u].id == u && users0[u].coins >= 0
      requires forall c :: c in courses0 ==> courses0[c].id == c
      requires forall w :: w in rewards0 ==> rewards0[w].id == w
      ensures Valid()
      ensures users == users0 && courses == courses0 && rewards == rewards0
      ensures enrollments == map[] && sessions == map[] && redemptions == [] && quizAttempts == []
    {
      users := users0;
      courses := courses0;
      rewards := rewards0;
      enrollments := map[];
      sessions := map[];
      redemptions := [];
      quizAttempts := [];
      nextId := 0;
    }

    /**
     * POST /courses/{course_id}/enroll. Returns the existing enrollment of
     * the pair if there is one; otherwise stores and returns a fresh one.
     */
    method EnrollCourse(userId: UserId, courseId: CourseId) returns (r: Reply<Enrollment>)
      requires Valid()
      modifies this
      ensures Valid()
      ensures users == old(users) && sessions == old(sessions)
      ensures redemptions == old(redemptions) && quizAttempts == old(quizAttempts)
      ensures userId !in users ==> r == Fail(Unauthorized) && unchanged(this)
      ensures userId in users && courseId !in courses ==> r == Fail(NotFound) && unchanged(this)
      ensures userId in users && courseId in courses && (userId, courseId) in old(enrollments) ==>
                r == Ok(old(enrollments)[(userId, courseId)]) && unchanged(this)
      ensures userId in users && courseId in courses && (userId, courseId) !in old(enrollments) ==>
                && r == Ok(NewEnrollment(old(nextId), userId, courseId))
                && enrollments == old(enrollments)[(userId, courseId) := r.value]
                && nextId == old(nextId) + 1
      ensures r.Ok? ==> (userId, courseId) in enrollments && enrollments[(userId, courseId)] == r.value
    {
      if userId !in users {
        return Fail(Unauthorized);
      }
      if courseId !in courses {
        return Fail(NotFound);
      }
      var key := (userId, courseId);
      if key in enrollments {
        return Ok(enrollments[key]);
      }
      var e := NewEnrollment(nextId, userId, courseId);
      enrollments := enrollments[key := e];
      nextId := nextId + 1;
      r := Ok(e);
    }

    /**
     * POST /quizzes/submit. Grades the answers and records the attempt. The
     * first pass of a module credits it to the caller's enrollment (if any),
     * pays 20 coins and, once every module is done, the positive completion
     * bonus. The reply reports 20 coins for every pass, credited or not.
     */
    method SubmitQuiz(userId: UserId, sub: QuizSubmission) returns (r: Reply<QuizResult>)
      requires Valid()
      modifies this
      ensures Valid()
      ensures sessions == old(sessions) && redemptions == old(redemptions)
      ensures userId !in users ==> r == Fail(Unauthorized) && unchanged(this)
      ensures userId in users && sub.courseId !in courses ==> r == Fail(NotFound) && unchanged(this)
      ensures userId in users && sub.courseId in courses
              && FindModule(courses[sub.courseId].modules, sub.moduleId).None? ==>
                r == Fail(NotFound) && unchanged(this)
      ensures r.Ok? <==> userId in old(users) && sub.courseId in courses
                         && FindModule(courses[sub.courseId].modules, sub.moduleId).Some?
      ensures r.Ok? ==>
                var questions := FindModule(courses[sub.courseId].modules, sub.moduleId).value.questions;
                && r.value.score == Score(CorrectCount(questions, sub.answers), |questions|)
                && r.value.passed == Passed(r.value.score)
                && r.value.coinsEarned == (if r.value.passed then CoinsPerModule else 0)
                && quizAttempts == old(quizAttempts) + [QuizAttempt(old(nextId), userId, sub.moduleId, sub.courseId, r.value.score, r.value.passed)]
                && nextId == old(nextId) + 1
      ensures var key := (userId, sub.courseId);
              var firstPass := r.Ok? && r.value.passed && key in old(enrollments)
                               && sub.moduleId !in old(enrollments)[key].completedModules;
              && (firstPass ==>
                    var course := courses[sub.courseId];
                    var credited := CreditModule(old(enrollments)[key], sub.moduleId, |course.modules|);
                    && enrollments == old(enrollments)[key := credited]
                    && users == old(users)[userId := PayForModule(old(users)[userId], course, credited)])
              && (!firstPass ==> enrollments == old(enrollments) && users == old(users))
    {
      if userId !in users {
        return Fail(Unauthorized);
      }
      if sub.courseId !in courses {
        return Fail(NotFound);
      }
      var course := courses[sub.courseId];
      assert course.id == sub.courseId;
      var found := FindModule(course.modules, sub.moduleId);
      if found.None? {
        return Fail(NotFound);
      }
      var questions := found.value.questions;
      var correct := CountCorrect(questions, sub.answers);
      var score := Score(correct, |questions|);
      var passed := score >= PassMark;
      quizAttempts := quizAttempts + [QuizAttempt(nextId, userId, sub.moduleId, sub.courseId, score, passed)];
      nextId := nextId + 1;
      if passed {
        CreditFirstPass(userId, course, sub.moduleId);
      }
      r := Ok(QuizResult(score, passed, if passed then CoinsPerModule else 0));
    }

    /**
     * The crediting step of submit_quiz after a pass: only when the caller is
     * enrolled and the module is not yet recorded.
     */
    method CreditFirstPass(userId: UserId, course: Course, moduleId: ModuleId)
      requires Valid() && userId in users && course.id in courses && courses[course.id] == course
      requires |course.modules| > 0
      modifies this`users, this`enrollments
      ensures Valid()
      ensures var key := (userId, course.id);
              var firstPass := key in old(enrollments) && moduleId !in old(enrollments)[key].completedModules;
              && (firstPass ==>
                    var credited := CreditModule(old(enrollments)[key], moduleId, |course.modules|);
                    && enrollments == old(enrollments)[key := credited]
                    && users == old(users)[userId := PayForModule(old(users)[userId], course, credited)])
              && (!firstPass ==> enrollments == old(enrollments) && users == old(users))
    {
      var key := (userId, course.id);
      if key in enrollments && moduleId !in enrollments[key].completedModules {
        var credited := CreditModule(enrollments[key], moduleId, |course.modules|);
        enrollments := enrollments[key := credited];
        var u := users[userId];
        users := users[userId := u.(coins := u.coins + CoinsPerModule)];
        if credited.progress >= 100.0 {
          var bonus := CompletionBonus(course, credited.coinsEarned);
          if bonus > 0 {
            var v := users[userId];
            users := users[userId := v.(coins := v.coins + bonus,
                                        totalCoursesCompleted := v.totalCoursesCompleted + 1)];
            // the bonus is added to the local copy of the enrollment only:
            // the stored coins_earned never includes it
          }
        }
      }
    }

    /** POST /skills/add: `$addToSet` on the caller's skills. The skill text is not checked. */
    method AddSkill(userId: UserId, skill: string) returns (r: Reply<()>)
      requires Valid()
      modifies this
      ensures Valid()
      ensures enrollments == old(enrollments) && sessions == old(sessions) && nextId == old(nextId)
      ensures redemptions == old(redemptions) && quizAttempts == old(quizAttempts)
      ensures userId !in old(users) ==> r == Fail(Unauthorized) && users == old(users)
      ensures userId in old(users) ==>
                var u := old(users)[userId];
                && r == Ok(())
                && users == old(users)[userId := u.(skillsCanTeach :=
                     if skill in u.skillsCanTeach then u.skillsCanTeach else u.skillsCanTeach + [skill])]
      ensures userId in users ==> skill in users[userId].skillsCanTeach
    {
      if userId !in users {
        return Fail(Unauthorized);
      }
      var u := users[userId];
      if skill !in u.skillsCanTeach {
        users := users[userId := u.(skillsCanTeach := u.skillsCanTeach + [skill])];
      }
      r := Ok(());
    }

    /**
     * POST /p2p/sessions/book. Booking oneself is refused with 400; any other
     * mentor id is accepted unchecked and one scheduled session is stored.
     */
    method BookSession(userId: UserId, booking: Booking) returns (r: Reply<Session>)
      requires Valid()
      modifies this
      ensures Valid()
      ensures users == old(users) && enrollments == old(enrollments)
      ensures redemptions == old(redemptions) && quizAttempts == old(quizAttempts)
      ensures userId !in users ==> r == Fail(Unauthorized) && unchanged(this)
      ensures userId in users && booking.mentorId == userId ==> r == Fail(BadRequest) && unchanged(this)
      ensures userId in users && booking.mentorId != userId ==>
                && r.Ok?
                && r.value == Session(old(nextId), booking.mentorId, userId, booking.skill, booking.scheduledAt,
                                      Scheduled, None, None, None)
                && old(nextId) !in old(sessions)
                && sessions == old(sessions)[old(nextId) := r.value]
                && |sessions.Keys| == |old(sessions).Keys| + 1
                && nextId == old(nextId) + 1
    {
      if userId !in users {
        return Fail(Unauthorized);
      }
      if booking.mentorId == userId {
        return Fail(BadRequest);
      }
      var s := Session(nextId, booking.mentorId, userId, booking.skill, booking.scheduledAt,
                       Scheduled, None, None, None);
      sessions := sessions[nextId := s];
      nextId := nextId + 1;
      r := Ok(s);
    }

    /**
     * POST /p2p/sessions/rate. Only the session's learner may rate it. The
     * session becomes completed with the given scores, and the learner earns
     * 10 coins and one completed session on every rating, repeated or not.
     */
    method RateSession(userId: UserId, rating: DetailedRating) returns (r: Reply<int>)
      requires Valid()
      modifies this
      ensures Valid()
      ensures enrollments == old(enrollments) && nextId == old(nextId)
      ensures redemptions == old(redemptions) && quizAttempts == old(quizAttempts)
      ensures userId !in users ==> r == Fail(Unauthorized) && unchanged(this)
      ensures userId in users && rating.sessionId !in sessions ==> r == Fail(NotFound) && unchanged(this)
      ensures userId in users && rating.sessionId in old(sessions) && old(sessions)[rating.sessionId].learnerId != userId ==>
                r == Fail(Forbidden) && unchanged(this)
      ensures userId in old(users) && rating.sessionId in old(sessions) && old(sessions)[rating.sessionId].learnerId == userId ==>
                var s := old(sessions)[rating.sessionId];
                var u := old(users)[userId];
                && r == Ok(SessionCoins)
                && sessions == old(sessions)[rating.sessionId :=
                     s.(status := Completed, scores := Some(rating.scores), feedback := rating.feedback)]
                && users == old(users)[userId := u.(coins := u.coins + SessionCoins,
                                                    totalSessionsCompleted := u.totalSessionsCompleted + 1)]
    {
      if userId !in users {
        return Fail(Unauthorized);
      }
      if rating.sessionId !in sessions {
        return Fail(NotFound);
      }
      var s := sessions[rating.sessionId];
      if s.learnerId != userId {
        return Fail(Forbidden);
      }
      sessions := sessions[rating.sessionId := s.(status := Completed, scores := Some(rating.scores),
                                                  feedback := rating.feedback)];
      var u := users[s.learnerId];
      users := users[s.learnerId := u.(coins := u.coins + SessionCoins,
                                       totalSessionsCompleted := u.totalSessionsCompleted + 1)];
      r := Ok(SessionCoins);
    }

    /**
     * POST /rewards/redeem. Fails with 404 for an unknown reward and with 400,
     * leaving the balance alone, when the caller has fewer coins than it
     * costs. Otherwise the cost is taken and one redemption recorded.
     */
    method RedeemReward(userId: UserId, rewardId: string) returns (r: Reply<()>)
      requires Valid()
      modifies this
      ensures Valid()
      ensures enrollments == old(enrollments) && sessions == old(sessions)
      ensures quizAttempts == old(quizAttempts)
      ensures userId !in users ==> r == Fail(Unauthorized) && unchanged(this)
      ensures userId in users && rewardId !in rewards ==> r == Fail(NotFound) && unchanged(this)
      ensures userId in old(users) && rewardId in rewards && old(users)[userId].coins < rewards[rewardId].coinCost ==>
                r == Fail(BadRequest) && unchanged(this)
      ensures userId in old(users) && rewardId in rewards && old(users)[userId].coins >= rewards[rewardId].coinCost ==>
                var u := old(users)[userId];
                && r == Ok(())
                && users == old(users)[userId := u.(coins := u.coins - rewards[rewardId].coinCost)]
                && users[userId].coins >= 0
                && redemptions == old(redemptions) + [Redemption(old(nextId), userId, rewardId)]
                && nextId == old(nextId) + 1
    {
      if userId !in users {
        return Fail(Unauthorized);
      }
      if rewardId !in rewards {
        return Fail(NotFound);
      }
      var u := users[userId];
      var reward := rewards[rewardId];
      if u.coins < reward.coinCost {
        return Fail(BadRequest);
      }
      users := users[userId := u.(coins := u.coins - reward.coinCost)];
      redemptions := redemptions + [Redemption(nextId, userId, reward.id)];
      nextId := nextId + 1;
      r := Ok(());
    }
  }
}
