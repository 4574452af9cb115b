/**
 * The peer-to-peer page (frontend/src/pages/P2P.js): the skill, booking,
 * rating and mentor-profile dialogs, the reminder a booking announces, and
 * which mentors and rate buttons the page shows.
 */
module P2P {
  import opened Common
  import opened ServerRules
  import opened ServerState

  /** GET /users/me as this page reads it: the user and the two optional mentor fields. */
  datatype Me = Me(user: User, mentorDescription: Option<string>, mentorLink: Option<string>)

  /** The mentor-profile form. */
  datatype MentorProfile = MentorProfile(description: string, link: string)

  /** The rating form; `sessionId` is empty until a session's "Rate Session" button is pressed. */
  datatype RatingForm = RatingForm(sessionId: Option<nat>, scores: Scores, feedback: string)

  /** The rating form as the page starts and as a successful rating leaves it: four fives, no feedback. */
  const BlankRating: RatingForm := RatingForm(None, Scores(5, 5, 5, 5), "")

  /** The requests the page sends, in order. */
  datatype Request =
    | AddSkillRequest(skill: string)
    | BookRequest(booking: Booking)
    | RateRequest(form: RatingForm)
    | ProfileRequest(profile: MentorProfile)

  /** JavaScript `value || ''` on an optional text field. */
  function TextOrEmpty(value: Option<string>): (r: string)
    ensures value.Some? ==> r == value.value
    ensures r == "" <==> value.None? || value.value == ""
  {
    if value.Some? then value.value else ""
  }

  /** The mentor-profile form filled from the user: a missing field becomes the empty text. */
  function MentorProfileOf(me: Me): (p: MentorProfile)
    ensures p.description == TextOrEmpty(me.mentorDescription)
    ensures p.link == TextOrEmpty(me.mentorLink)
  {
    MentorProfile(TextOrEmpty(me.mentorDescription), TextOrEmpty(me.mentorLink))
  }

  // ---------------------------------------------------------------------
  // What the page shows
  // ---------------------------------------------------------------------

  const MentorsShown: nat := 5

  /** `mentors.slice(0, 5)`: the first five mentors, or all of them when there are fewer. */
  function VisibleMentors(mentors: seq<User>): (v: seq<User>)
    ensures v <= mentors
    ensures |v| <= MentorsShown
    ensures |v| == MentorsShown || v == mentors
  {
    if |mentors| <= MentorsShown then mentors else mentors[..MentorsShown]
  }

  /** "Rate Session" is offered for a scheduled session the user is the learner of. */
  predicate CanRate(session: Session, userId: UserId) {
    session.status == Scheduled && session.learnerId == userId
  }

  // ---------------------------------------------------------------------
  // The booking reminder
  // ---------------------------------------------------------------------

  const MsPerHour: int := 3600000

  /**
   * `Math.round((sessionDate - new Date()) / 3600000)`: the whole hours to
   * the session, the nearest one to the exact quotient, halves rounded up.
   */
  function HoursUntil(ms: int): (h: int)
    ensures h == Round(ms as real / MsPerHour as real)
    ensures h * MsPerHour - MsPerHour / 2 <= ms < h * MsPerHour + MsPerHour / 2
  {
    var h := (ms + MsPerHour / 2) / MsPerHour;
    RoundOfQuotient(ms, h);
    h
  }

  lemma RoundOfQuotient(ms: int, h: int)
    requires h == (ms + MsPerHour / 2) / MsPerHour
    ensures h == Round(ms as real / MsPerHour as real)
  {
    var x := ms as real / MsPerHour as real;
    assert x + 0.5 == (ms + MsPerHour / 2) as real / MsPerHour as real;
    var n := Round(x);
    assert (h * MsPerHour) as real <= (ms + MsPerHour / 2) as real;
    assert h as real <= x + 0.5;
    assert (ms + MsPerHour / 2) as real < (h * MsPerHour + MsPerHour) as real;
    assert x + 0.5 < h as real + 1.0;
  }

  /** The reminder threshold of 24 hours means: the session starts less than 24.5 hours from now, or has started. */
  lemma {:induction false} ReminderThreshold(ms: int)
    ensures HoursUntil(ms) <= 24 <==> ms < 24 * MsPerHour + MsPerHour / 2
  {
    var h := HoursUntil(ms);
    if h <= 24 {
      assert h * MsPerHour <= 24 * MsPerHour;
    } else {
      assert h * MsPerHour >= 25 * MsPerHour;
    }
  }

  /** The reminder text: the count is always followed by "hours", even for one. */
  function ReminderText(hours: int): string {
    "\U{1F514} Reminder: Session starts in " + IntToString(hours) + " hours"
  }

  /**
   * The reminder a successful booking announces, given the time to the
   * session in milliseconds (`None` for a time that does not parse, whose
   * difference is NaN and fails the comparison).
   */
  function BookingReminder(elapsed: Option<int>): (t: Option<Toast>)
    ensures t.Some? <==> elapsed.Some? && HoursUntil(elapsed.value) <= 24
    ensures t.Some? ==> t.value.Info?
  {
    if elapsed.Some? && HoursUntil(elapsed.value) <= 24 then Some(Info(ReminderText(HoursUntil(elapsed.value))))
    else None
  }

  /** A session that has already started still gets the reminder, with a count of zero or less. */
  lemma PastSessionsStillRemind(ms: int)
    requires ms < 0
    ensures BookingReminder(Some(ms)).Some?
    ensures HoursUntil(ms) <= 0
  {
  }

  /** The reminder shows the hour count it was decided on, so different counts give different reminders. */
  lemma {:induction false} ReminderNamesTheHours(a: int, b: int)
    requires ReminderText(a) == ReminderText(b)
    ensures a == b
  {
    var p := "\U{1F514} Reminder: Session starts in ";
    var s := " hours";
    var ta := IntToString(a);
    var tb := IntToString(b);
    assert |ta| == |tb|;
    assert ta == ReminderText(a)[|p|..|p| + |ta|];
    assert tb == ReminderText(b)[|p|..|p| + |tb|];
    IntToStringInjective(a, b);
  }

  // ---------------------------------------------------------------------
  // Toast texts
  // ---------------------------------------------------------------------

  const LoadFailed: string := "Failed to load P2P data"
  const SkillAdded: string := "Skill added successfully!"
  const SkillFailed: string := "Failed to add skill"
  const ProfileUpdated: string := "Mentor profile updated!"
  const ProfileFailed: string := "Failed to update profile"
  const Booked: string := "Session booked successfully!"
  const BookFailed: string := "Failed to book session"
  const Rated: string := "Session rated! Earned 10 coins!"
  const RateFailed: string := "Failed to rate session"

  /** The three responses `fetchData` waits for together. */
  datatype P2PResponses = P2PResponses(me: Fetch<Me>, mentors: Fetch<seq<User>>, sessions: Fetch<seq<Session>>)

  predicate AllFetched(r: P2PResponses) {
    r.me.Fetched? && r.mentors.Fetched? && r.sessions.Fetched?
  }

  /** The toasts of one `fetchData`: none, or the one load error. */
  function LoadToasts(r: P2PResponses): (ts: seq<Toast>)
    ensures ts == [] <==> AllFetched(r)
    ensures |ts| <= 1
  {
    if AllFetched(r) then [] else [Error(LoadFailed)]
  }

  /** What `fetchData` fills in: the user, the mentors, the sessions and the mentor-profile form. */
  datatype PageData = PageData(me: Option<Me>, mentors: seq<User>, sessions: seq<Session>, mentorProfile: MentorProfile)

  // ---------------------------------------------------------------------
  // The page
  // ---------------------------------------------------------------------

  class P2PPage {
    var me: Option<Me>
    var mentors: seq<User>
    var sessions: seq<Session>
    var showAddSkill: bool
    var showBookSession: bool
    var showEditProfile: bool
    var showRateSession: bool
    var newSkill: string
    var selectedMentor: Option<User>
    /** The booking form: the skill and the date-time text. */
    var bookingSkill: string
    var bookingTime: string
    var rating: RatingForm
    var mentorProfile: MentorProfile
    /** Every request sent, oldest first. */
    var requests: seq<Request>
    /** Every toast shown, oldest first. */
    var toasts: seq<Toast>

    constructor ()
      ensures me.None? && mentors == [] && sessions == []
      ensures !showAddSkill && !showBookSession && !showEditProfile && !showRateSession
      ensures newSkill == "" && selectedMentor.None? && bookingSkill == "" && bookingTime == ""
      ensures rating == BlankRating && mentorProfile == MentorProfile("", "")
      ensures requests == [] && toasts == []
    {
      me, mentors, sessions := None, [], [];
      showAddSkill, showBookSession, showEditProfile, showRateSession := false, false, false, false;
      newSkill, selectedMentor, bookingSkill, bookingTime := "", None, "", "";
      rating, mentorProfile := BlankRating, MentorProfile("", "");
      requests, toasts := [], [];
    }

    /** The part of the page that `fetchData` fills in. */
    function Data(): PageData
      reads this
    {
      PageData(me, mentors, sessions, mentorProfile)
    }

    /**
     * The page data after a `fetchData` that started from `before`: the
     * three responses and the refilled profile form when every request
     * succeeds, `before` untouched otherwise.
     */
    ghost predicate Reloaded(r: P2PResponses, before: PageData)
      reads this
    {
      && (AllFetched(r) ==>
            Data() == PageData(Some(r.me.value), r.mentors.value, r.sessions.value, MentorProfileOf(r.me.value)))
      && (!AllFetched(r) ==> Data() == before)
    }

    /**
     * `fetchData`: all three responses or nothing. When every request
     * succeeds, the page takes them and refills the mentor-profile form;
     * otherwise it keeps what it had and shows one error.
     */
    method Load(r: P2PResponses)
      modifies this`me, this`mentors, this`sessions, this`mentorProfile, this`toasts
      ensures AllFetched(r) ==>
                && me == Some(r.me.value) && mentors == r.mentors.value && sessions == r.sessions.value
                && mentorProfile == MentorProfileOf(r.me.value)
      ensures !AllFetched(r) ==>
                && me == old(me) && mentors == old(mentors) && sessions == old(sessions)
                && mentorProfile == old(mentorProfile)
      ensures Reloaded(r, old(Data()))
      ensures toasts == old(toasts) + LoadToasts(r)
    {
      if AllFetched(r) {
        me := Some(r.me.value);
        mentors := r.mentors.value;
        sessions := r.sessions.value;
        mentorProfile := MentorProfileOf(r.me.value);
      } else {
        toasts := toasts + [Error(LoadFailed)];
      }
    }

    /**
     * `handleAddSkill`: nothing at all when the skill trims to empty;
     * otherwise the skill is sent as typed, and a success clears and closes
     * the dialog and reloads.
     */
    method AddSkill(ok: bool, reload: P2PResponses)
      modifies this`newSkill, this`showAddSkill, this`requests, this`toasts
      modifies this`me, this`mentors, this`sessions, this`mentorProfile
      ensures Trim(old(newSkill)) == [] ==>
                && requests == old(requests) && toasts == old(toasts)
                && newSkill == old(newSkill) && showAddSkill == old(showAddSkill) && Data() == old(Data())
      ensures Trim(old(newSkill)) != [] ==> SkillSent(ok, reload, old(newSkill), old(showAddSkill), old(Data()), old(requests), old(toasts))
    {
      if Trim(newSkill) == [] {
        return;
      }
      SendSkill(ok, reload);
    }

    /** The state after the skill `typed` was sent: cleared and closed with a reload on success, kept with one error on failure. */
    ghost predicate SkillSent(ok: bool, reload: P2PResponses, typed: string, wasShown: bool, before: PageData,
                              oldRequests: seq<Request>, oldToasts: seq<Toast>)
      reads this
    {
      && requests == oldRequests + [AddSkillRequest(typed)]
      && (!ok ==>
            && toasts == oldToasts + [Error(SkillFailed)]
            && newSkill == typed && showAddSkill == wasShown && Data() == before)
      && (ok ==>
            && newSkill == "" && !showAddSkill
            && toasts == oldToasts + [Success(SkillAdded)] + LoadToasts(reload)
            && Reloaded(reload, before))
    }

    /** The request half of `handleAddSkill`, once the skill is known not to be blank. */
    method SendSkill(ok: bool, reload: P2PResponses)
      modifies this`newSkill, this`showAddSkill, this`requests, this`toasts
      modifies this`me, this`mentors, this`sessions, this`mentorProfile
      ensures SkillSent(ok, reload, old(newSkill), old(showAddSkill), old(Data()), old(requests), old(toasts))
    {
      requests := requests + [AddSkillRequest(newSkill)];
      if !ok {
        toasts := toasts + [Error(SkillFailed)];
        return;
      }
      toasts := toasts + [Success(SkillAdded)];
      newSkill := "";
      showAddSkill := false;
      Load(reload);
    }

    /** `handleUpdateMentorProfile`: sends the form; a success closes the dialog and reloads. */
    method UpdateMentorProfile(ok: bool, reload: P2PResponses)
      modifies this`showEditProfile, this`requests, this`toasts
      modifies this`me, this`mentors, this`sessions, this`mentorProfile
      ensures requests == old(requests) + [ProfileRequest(old(mentorProfile))]
      ensures !ok ==>
                && toasts == old(toasts) + [Error(ProfileFailed)]
                && showEditProfile == old(showEditProfile) && Data() == old(Data())
      ensures ok ==>
                && !showEditProfile
                && toasts == old(toasts) + [Success(ProfileUpdated)] + LoadToasts(reload)
                && Reloaded(reload, old(Data()))
    {
      requests := requests + [ProfileRequest(mentorProfile)];
      if !ok {
        toasts := toasts + [Error(ProfileFailed)];
        return;
      }
      toasts := toasts + [Success(ProfileUpdated)];
      showEditProfile := false;
      Load(reload);
    }

    /** "Book Session" on one of the listed mentors opens the booking dialog for that mentor. */
    method SelectMentor(mentor: User)
      requires mentor in VisibleMentors(mentors)
      modifies this`selectedMentor, this`showBookSession
      ensures selectedMentor == Some(mentor) && showBookSession
    {
      selectedMentor := Some(mentor);
      showBookSession := true;
    }

    /**
     * `handleBookSession`, given whether the request succeeds and the time
     * from now to the chosen start. With no mentor selected the request
     * cannot be built and the page shows the booking error. A success
     * announces the booking, then the reminder when it is due within the
     * threshold, closes the dialog, clears the form and reloads.
     */
    method BookSession(ok: bool, elapsed: Option<int>, reload: P2PResponses)
      modifies this`showBookSession, this`bookingSkill, this`bookingTime, this`requests, this`toasts
      modifies this`me, this`mentors, this`sessions, this`mentorProfile
      ensures old(selectedMentor).None? ==> requests == old(requests)
      ensures old(selectedMentor).Some? ==>
                requests == old(requests)
                  + [BookRequest(Booking(old(selectedMentor).value.id, old(bookingSkill), old(bookingTime)))]
      ensures old(selectedMentor).None? || !ok ==>
                && toasts == old(toasts) + [Error(BookFailed)]
                && showBookSession == old(showBookSession)
                && bookingSkill == old(bookingSkill) && bookingTime == old(bookingTime)
                && Data() == old(Data())
      ensures old(selectedMentor).Some? && ok ==>
                && var shown := [Success(Booked)] + (var t := BookingReminder(elapsed); if t.Some? then [t.value] else []);
                && toasts == old(toasts) + shown + LoadToasts(reload)
                && !showBookSession && bookingSkill == "" && bookingTime == ""
                && Reloaded(reload, old(Data()))
    {
      if selectedMentor.None? {
        toasts := toasts + [Error(BookFailed)];
        return;
      }
      requests := requests + [BookRequest(Booking(selectedMentor.value.id, bookingSkill, bookingTime))];
      if !ok {
        toasts := toasts + [Error(BookFailed)];
        return;
      }
      toasts := toasts + [Success(Booked)];
      var reminder := BookingReminder(elapsed);
      if reminder.Some? {
        toasts := toasts + [reminder.value];
      }
      showBookSession := false;
      bookingSkill, bookingTime := "", "";
      Load(reload);
    }

    /** "Rate Session", offered only where `CanRate` holds, opens the rating dialog for that session. */
    method OpenRating(session: Session)
      requires me.Some? && CanRate(session, me.value.user.id)
      modifies this`rating, this`showRateSession
      ensures rating == old(rating).(sessionId := Some(session.id)) && showRateSession
    {
      rating := rating.(sessionId := Some(session.id));
      showRateSession := true;
    }

    /** `handleRateSession`: sends the form; a success closes the dialog, resets the form and reloads. */
    method RateSession(ok: bool, reload: P2PResponses)
      modifies this`showRateSession, this`rating, this`requests, this`toasts
      modifies this`me, this`mentors, this`sessions, this`mentorProfile
      ensures requests == old(requests) + [RateRequest(old(rating))]
      ensures !ok ==>
                && toasts == old(toasts) + [Error(RateFailed)]
                && showRateSession == old(showRateSession) && rating == old(rating)
                && Data() == old(Data())
      ensures ok ==>
                && !showRateSession && rating == BlankRating
                && toasts == old(toasts) + [Success(Rated)] + LoadToasts(reload)
                && Reloaded(reload, old(Data()))
    {
      requests := requests + [RateRequest(rating)];
      if !ok {
        toasts := toasts + [Error(RateFailed)];
        return;
      }
      toasts := toasts + [Success(Rated)];
      showRateSession := false;
      rating := BlankRating;
      Load(reload);
    }
  }
}
