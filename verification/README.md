# Mint-Mind learning platform — a Dafny model of its business rules

Mint-Mind is a gamified learning service. Learners enrol in courses and take module quizzes, and a passed module earns coins. They book peer-to-peer sessions with mentors and rate them, also for coins. Coins are spent on rewards in a store. A chat assistant answers questions, and reminders announce upcoming sessions.

This project models two layers:

- **The service's rules** (`backend/server.py`):
  - quiz grading and the pass mark;
  - module credit, course progress and the completion bonus;
  - enrolment;
  - the mentor query and the leaderboard;
  - booking and rating sessions;
  - redeeming rewards.
- **The rules the web client applies itself** (seven React files): gating of modules and quiz buttons, the reminder and toast texts, the urgent-reminder poll, the recommendation formatter, the notification switches, the P2P page's flows, the store's redeem button, the reminders bell and the chat panel.

The files are:

- `common.dfy`:
  - `Option` and the network outcome `Fetch`;
  - the `Toast` log entry;
  - JavaScript's `String.prototype.trim`;
  - decimal rendering of numbers;
  - `Math.round`.
- `server_rules.dfy`: the pure computations of the service, as functions and lemmas. Grading has one loop, `CountCorrect`.
- `server_state.dfy`: the endpoints that write to the database, as the class `Server`. Its fields are the collections, keyed by id. Every method keeps the invariant `Valid`, and each states the whole new state in its contract.
- `reminder_text.dfy`: the role and hour texts that the dashboard and the bell share.
- `dashboard.dfy`, `course_detail.dfy`, `notification_settings.dfy`, `p2p.dfy`, `store.dfy`, `reminders.dfy`, `ai_assistant.dfy`: one module per client file.
  - A page with state is a class. Its fields are the React state, plus a log of the toasts shown and the requests sent.
  - The outcome of each network call is a parameter of the method that handles it.

How the code is read where descriptions of the system and the code differ:

- **No deduplication.** The product's design calls for a notification pipeline that filters events through the user's settings and never shows an event twice. The code has no such pipeline. `Dashboard.js` announces every reminder within the hour on every poll and never consults the settings. The model follows the code: `Dashboard.NoSuppressionAcrossPolls` proves that two polls announce the same urgent session twice.
- **Escaped enrolment handler.** `CourseDetail.js` line 51 holds the body of `handleEnroll` with its line breaks written as `\n` escapes. It is modelled as the multi-line handler those escapes evidently stand for.

## Model

| member | source | states |
|---|---|---|
| ServerRules.FindModule | backend/server.py:215-217 | no module is found exactly when no module carries the id; a found module is one of the course's modules |
| ServerRules.CorrectCount | backend/server.py:219-223 | the count never exceeds the number of answers nor the number of questions |
| ServerRules.CorrectCountIsCount | backend/server.py:219-223 | the count is the number of answer positions whose answer equals the question's correct answer |
| ServerRules.ExtraAnswersIgnored | backend/server.py:221-222 | answers beyond the last question never count |
| ServerRules.CountCorrect | backend/server.py:219-223 | the grading loop computes exactly the specified count |
| ServerRules.Score | backend/server.py:225 | the score lies in 0..100, is 0 for a module without questions and 100 when every answer is right |
| ServerRules.ScoreScaled | backend/server.py:225 | score times the number of questions is 100 times the correct count |
| ServerRules.PassedIff | backend/server.py:225-226 | a quiz passes exactly when the module has questions and at least 70% of them are answered right |
| ServerRules.Progress | backend/server.py:247 | progress is never negative |
| ServerRules.ProgressFullIff | backend/server.py:247-262 | progress reaches 100 exactly when every module has been completed |
| ServerRules.CoinReward | backend/server.py:263 | a course with a reward of its own is worth that reward; one without is worth 100 coins |
| ServerRules.MatchingMentors | backend/server.py:288-292 | a user is listed exactly when they teach the requested skill, or, with no skill given, teach anything |
| ServerRules.GetMentors | backend/server.py:294 | the first min(100, number of matches) matching users, in collection order: each a match, and every match when there are no more than 100 |
| ServerRules.RowsOf | backend/server.py:380 | one leaderboard projection per user, in order |
| ServerRules.InsertByCoins | backend/server.py:381 | inserting into a list ordered by descending coins keeps it ordered and adds exactly that row |
| ServerRules.SortByCoins | backend/server.py:381 | the sort orders by descending coins and is a permutation of its input |
| ServerRules.SortedPrefixIsTop | backend/server.py:381 | no row left out of a prefix of the sorted list has more coins than a row in it |
| ServerRules.Leaderboard | backend/server.py:376-382 | min(50, users) rows, ordered by descending coins, drawn from the users, and no user left out is richer than one listed |
| ServerState.Code | backend/server.py:337-341 | every refusal is answered with a 4xx status, as the rating endpoint's 404 and 403 are |
| ServerState.NewEnrollment | backend/server.py:197-205 | a new enrolment has no progress, no completed module and no coins |
| ServerState.CreditModule | backend/server.py:245-255 | the module is appended to the completed list, progress is recomputed from the new count, 20 coins are added and the ids are kept; modules stay distinct, and progress reaches 100 exactly when all modules are done |
| ServerState.CourseCompletionPays | backend/server.py:262-268 | once every module is credited at 20 coins, module coins plus any bonus paid come to the larger of the course reward and the module coins |
| ServerState.PayForModule | backend/server.py:256-269 | the user gains 20 coins, plus the bonus and one completed course exactly when the course is finished with a positive bonus |
| ServerState.Server.constructor | backend/server.py:20-22 | a database with no enrolments, sessions, attempts or redemptions satisfies the invariant |
| ServerState.Server.EnrollCourse | backend/server.py:183-207 | 401 for an unknown user, 404 for an unknown course, the existing enrolment unchanged, otherwise one fresh enrolment stored |
| ServerState.Server.SubmitQuiz | backend/server.py:209-271 | the error cases change nothing; otherwise the attempt is recorded with the graded score, a first pass credits the module and pays the user, and a pass always reports 20 coins |
| ServerState.Server.CreditFirstPass | backend/server.py:239-269 | an enrolled user's first pass of a module credits it and pays for it; a repeat pass or a missing enrolment changes nothing |
| ServerState.Server.AddSkill | backend/server.py:278-284 | the skill is added to the caller's skills once, as a set insertion; nothing else changes |
| ServerState.Server.BookSession | backend/server.py:297-314 | booking oneself is refused with 400; otherwise exactly one new scheduled session is stored with the caller as learner |
| ServerState.Server.RateSession | backend/server.py:334-374 | 404 for an unknown session, 403 unless the caller is its learner; otherwise the session is completed with the scores and the learner earns 10 coins and one session on every rating |
| ServerState.Server.RedeemReward | backend/server.py:389-411 | 404 for an unknown reward, 400 without enough coins and nothing spent; otherwise the cost is taken, the balance stays non-negative and one redemption is recorded |
| ReminderText.RoleLabelTellsRole | frontend/src/components/Reminders.js:89 | the role label tells teaching and learning apart |
| ReminderText.HoursTextShape | frontend/src/pages/Dashboard.js:29-30 | the hour text starts with the number and ends in "s" exactly when the number is not 1 |
| Dashboard.UrgentReminders | frontend/src/pages/Dashboard.js:25 | every kept reminder is within the hour |
| Dashboard.UrgentRemindersMembers | frontend/src/pages/Dashboard.js:25 | a reminder is kept exactly when it is in the response and within the hour |
| Dashboard.ToastMessageShape | frontend/src/pages/Dashboard.js:27-31 | the message names the role and the skill, ends in "!", and says "hours" exactly when the count is not 1 |
| Dashboard.MessagesFor | frontend/src/pages/Dashboard.js:26-31 | one message per reminder, in order |
| Dashboard.PollToasts | frontend/src/pages/Dashboard.js:25-35 | a poll shows one toast per urgent reminder and no more |
| Dashboard.PollAnnouncesOnlyUrgent | frontend/src/pages/Dashboard.js:25-35 | every toast of a poll announces an urgent reminder of the response |
| Dashboard.PollAnnouncesEveryUrgent | frontend/src/pages/Dashboard.js:25-35 | every urgent reminder of the response is announced |
| Dashboard.DashboardPage.constructor | frontend/src/pages/Dashboard.js:15-20 | the dashboard starts with no toast shown |
| Dashboard.DashboardPage.CheckNotifications | frontend/src/pages/Dashboard.js:22-40 | a response appends exactly the poll's toasts; a failed request shows nothing |
| Dashboard.DashboardPage.Announce | frontend/src/pages/Dashboard.js:27-35 | the loop appends one information toast per message, in order |
| Dashboard.NoSuppressionAcrossPolls | frontend/src/pages/Dashboard.js:22-40 | two polls of the same response announce the same urgent session twice |
| Dashboard.Split | frontend/src/pages/Dashboard.js:183 | splitting yields at least one part and no part contains the separator |
| Dashboard.SplitJoin | frontend/src/pages/Dashboard.js:183 | the parts joined back with the separator give the text |
| Dashboard.RemoveAll | frontend/src/pages/Dashboard.js:185 | removal never lengthens the line |
| Dashboard.RemoveAllWithoutOccurrence | frontend/src/pages/Dashboard.js:185 | a line without the pattern comes back unchanged |
| Dashboard.RemoveAllKeepsPrefix | frontend/src/pages/Dashboard.js:185 | the text before the first occurrence is kept as it is, and the scan carries on after it |
| Dashboard.RemoveAllDropsOccurrence | frontend/src/pages/Dashboard.js:185 | an occurrence after text free of the pattern is deleted, and the rest is cleaned the same way |
| Dashboard.UnwrapMarkers | frontend/src/pages/Dashboard.js:185 | a text wrapped in a pattern it does not otherwise contain comes back unwrapped |
| Dashboard.RemoveAllLeavesNoRun | frontend/src/pages/Dashboard.js:185 | after removing a run of one repeated character, no occurrence of it remains |
| Dashboard.CleanLine | frontend/src/pages/Dashboard.js:185 | a cleaned line contains no "###" and neither starts nor ends with white space |
| Dashboard.CleanLineWithoutMarkup | frontend/src/pages/Dashboard.js:185 | a line without "**" or "###" is only trimmed |
| Dashboard.CleanLineUnwrapsBold | frontend/src/pages/Dashboard.js:185 | "**" + x + "**" cleans to the trim of x when x has no "*" and no "###" |
| Dashboard.LeadingDigits | frontend/src/pages/Dashboard.js:188 | the prefix counted is all digits and the next character is not one |
| Dashboard.MatchTitle | frontend/src/pages/Dashboard.js:188 | the title is a non-empty single-line suffix after white space only, and starts with a character that is not white space unless it is the one character the greedy `\s*` gives back |
| Dashboard.MatchTitleComplete | frontend/src/pages/Dashboard.js:188 | white space followed by a non-empty single-line title always matches, and the title captured is exactly that title when it starts with a character that is not white space or is one character |
| Dashboard.MatchHeading | frontend/src/pages/Dashboard.js:188 | a matched line is digits, a dot, white space and a title starting with a character that is not white space (or of one character); the parts returned are the digits and that title |
| Dashboard.MatchHeadingComplete | frontend/src/pages/Dashboard.js:188 | every line of that shape is matched with its number, and with exactly its title when the title starts with a character that is not white space or is one character |
| Dashboard.BulletText | frontend/src/pages/Dashboard.js:213 | the bullet text is what follows the dash and the white space after it: a proper suffix of the line, only white space between the dash and it, and not starting with white space |
| Dashboard.Classify | frontend/src/pages/Dashboard.js:188-241 | heading exactly when the pattern matches; bullet exactly when it does not and the line starts with "-"; a blank line shows nothing |
| Dashboard.NonBlankLines | frontend/src/pages/Dashboard.js:183 | a line is kept exactly when its trim is non-empty |
| Dashboard.NonBlankLinesCount | frontend/src/pages/Dashboard.js:183 | every line that is not blank is kept as often as it occurs, and no blank line is kept |
| Dashboard.NonBlankLinesAppend | frontend/src/pages/Dashboard.js:183 | filtering a concatenation concatenates the filtered parts, so the order of the lines is kept |
| Dashboard.ClassifyAll | frontend/src/pages/Dashboard.js:183-243 | each kept line is cleaned and classified, in order |
| Dashboard.RenderRecommendations | frontend/src/pages/Dashboard.js:183-243 | one rendered entry per non-blank line of the text |
| Dashboard.SplitWithoutSeparator | frontend/src/pages/Dashboard.js:183 | a text without a line break is a single line |
| Dashboard.MarkupOnlyCleansToEmpty | frontend/src/pages/Dashboard.js:185 | the line "**###" cleans to the empty string |
| Dashboard.MarkupOnlyLineShowsBlank | frontend/src/pages/Dashboard.js:183-242 | the text "**###" trims to itself, so the blank filter keeps it, yet it renders as a single `Blank` entry |
| CourseDetail.LockedIffBeyondNext | frontend/src/pages/CourseDetail.js:153-154 | when the first modules are done in order, exactly the modules past the next one are locked |
| CourseDetail.KeysAscending | frontend/src/pages/CourseDetail.js:58 | the answer keys in ascending order, each once |
| CourseDetail.KeyAtRank | frontend/src/pages/CourseDetail.js:58 | each key is listed at the position given by the number of smaller keys |
| CourseDetail.AnswersInKeyOrder | frontend/src/pages/CourseDetail.js:58 | one answer per chosen question; the choice for question k is at the position given by the number of chosen questions before k |
| CourseDetail.Indices | frontend/src/pages/CourseDetail.js:204 | the question positions are exactly 0 up to the count |
| CourseDetail.KeysOfIndices | frontend/src/pages/CourseDetail.js:58 | the keys 0..n-1 come out in the order 0..n-1 |
| CourseDetail.AnswersMatchQuestions | frontend/src/pages/CourseDetail.js:58 | when every question has been answered, the i-th answer sent is the one chosen for question i |
| CourseDetail.FindEnrollment | frontend/src/pages/CourseDetail.js:37 | no enrolment is found exactly when none is for the course; a found one is from the list |
| CourseDetail.LoadEffect | frontend/src/pages/CourseDetail.js:27-51 | at most one enrol request, sent exactly when the user has no enrolment for the course; a failed first request changes nothing and shows one error; otherwise user and course are shown, and: a failed enrolments request keeps the enrolment and shows one load error; a found enrolment is shown silently; a successful enrol shows the new enrolment with one success toast; a failed enrol shows none and one "Enrollment failed" error |
| CourseDetail.FirstVisitEnrolls | frontend/src/pages/CourseDetail.js:40-51 | a first visit sends one enrol request and shows the new enrolment |
| CourseDetail.ReturnVisitKeepsEnrollment | frontend/src/pages/CourseDetail.js:36-42 | a return visit sends no enrol request and silently shows the enrolment `find` returns, the first one for the course |
| CourseDetail.CourseDetailPage.constructor | frontend/src/pages/CourseDetail.js:15-21 | the page starts empty and loading |
| CourseDetail.CourseDetailPage.Load | frontend/src/pages/CourseDetail.js:27-51 | the page's data, toasts and enrol requests change as the load specifies; loading ends |
| CourseDetail.CourseDetailPage.ClickModule | frontend/src/pages/CourseDetail.js:153-162 | a locked module cannot be opened; any other becomes active; the chosen answers are kept either way |
| CourseDetail.CourseDetailPage.OpenQuiz | frontend/src/pages/CourseDetail.js:133-135 | the quiz opens unless the module is already completed |
| CourseDetail.CourseDetailPage.ChooseAnswer | frontend/src/pages/CourseDetail.js:204 | choosing records the option under the question's position |
| CourseDetail.CourseDetailPage.CloseQuiz | frontend/src/pages/CourseDetail.js:193 | the dialog closes |
| CourseDetail.CourseDetailPage.SubmitQuiz | frontend/src/pages/CourseDetail.js:57-85 | without an active module only an error; otherwise the answers in key order are sent, and a pass reloads and resets the dialog while a fail only reports the score |
| CourseDetail.CourseDetailPage.ShowResult | frontend/src/pages/CourseDetail.js:67-84 | a failed request shows one error; a fail shows the rounded score; a pass shows the coins, reloads, closes the dialog and clears the answers |
| CourseDetail.StaleAnswersEnableSubmit | frontend/src/pages/CourseDetail.js:217 | when every question of the previous module was answered and the next module has as many questions, Submit is enabled at once and would send the previous module's choices, question by question |
| NotificationSettings.SameSwitchesSameSettings | frontend/src/pages/NotificationSettings.js:12-18 | two settings records are equal exactly when every switch agrees |
| NotificationSettings.DefaultsOnExceptUrgentOnly | frontend/src/pages/NotificationSettings.js:12-18 | by default every switch is on except "urgent only" |
| NotificationSettings.Flip | frontend/src/pages/NotificationSettings.js:42 | the named switch flips and no other changes |
| NotificationSettings.FlipTwice | frontend/src/pages/NotificationSettings.js:42 | two flips of one switch restore the record |
| NotificationSettings.FlipChanges | frontend/src/pages/NotificationSettings.js:42 | a flip always changes the record |
| NotificationSettings.SettingsPage.constructor | frontend/src/pages/NotificationSettings.js:10-19 | the page starts loading, with the defaults |
| NotificationSettings.SettingsPage.Load | frontend/src/pages/NotificationSettings.js:25-39 | stored settings replace the record only when both requests succeed and the body is present; loading ends |
| NotificationSettings.SettingsPage.Toggle | frontend/src/pages/NotificationSettings.js:41-54 | the flipped record is shown and saved; a failed save shows one error and puts the old record back |
| P2P.TextOrEmpty | frontend/src/pages/P2P.js:50-53 | a present text is kept; the result is empty exactly when the text is absent or empty |
| P2P.MentorProfileOf | frontend/src/pages/P2P.js:50-53 | the profile form is filled from the user's description and link, or left empty |
| P2P.VisibleMentors | frontend/src/pages/P2P.js:245 | the first five mentors, or all of them when there are fewer |
| P2P.HoursUntil | frontend/src/pages/P2P.js:99-100 | the hours are the rounded quotient, within half an hour of the time left |
| P2P.ReminderThreshold | frontend/src/pages/P2P.js:100-101 | a reminder is due exactly when less than 24.5 hours remain |
| P2P.BookingReminder | frontend/src/pages/P2P.js:98-105 | an information reminder is shown exactly when the date parses and the session is at most 24 rounded hours away |
| P2P.PastSessionsStillRemind | frontend/src/pages/P2P.js:100-105 | a session booked in the past still gets a reminder, with zero or negative hours |
| P2P.ReminderNamesTheHours | frontend/src/pages/P2P.js:102 | the reminder text determines the hour count |
| P2P.LoadToasts | frontend/src/pages/P2P.js:39-57 | a load shows no toast exactly when all three requests succeed, and at most one otherwise |
| P2P.P2PPage.constructor | frontend/src/pages/P2P.js:12-33 | the page starts empty, with the default rating form |
| P2P.P2PPage.Load | frontend/src/pages/P2P.js:39-57 | all three responses replace the page data and refill the profile form; any failure keeps it and shows one error |
| P2P.P2PPage.AddSkill | frontend/src/pages/P2P.js:59-70 | a blank skill changes nothing at all: no request, no toast, same form and same page data; otherwise the typed skill is sent |
| P2P.P2PPage.SendSkill | frontend/src/pages/P2P.js:61-69 | success clears and closes the form and reloads: the new user, mentors, sessions and profile form when every request succeeds, the old ones plus a load error otherwise; failure shows one error and keeps the form and all page data |
| P2P.P2PPage.UpdateMentorProfile | frontend/src/pages/P2P.js:72-84 | the form is sent; success closes it and reloads all page data, keeping the old data plus a load error when a request fails; failure shows one error and keeps the dialog and all page data |
| P2P.P2PPage.SelectMentor | frontend/src/pages/P2P.js:264-268 | the chosen visible mentor is selected and the booking dialog opens |
| P2P.P2PPage.BookSession | frontend/src/pages/P2P.js:86-113 | without a mentor or on failure one error, with the form and all page data kept; on success the confirmation, the reminder when due, a reset form and a reload of all page data, or the old data plus a load error when a request fails |
| P2P.P2PPage.OpenRating | frontend/src/pages/P2P.js:305-310 | the rating form is bound to the session and opened |
| P2P.P2PPage.RateSession | frontend/src/pages/P2P.js:115-136 | the form is sent; success resets and closes it and reloads all page data, or keeps the old data plus a load error when a request fails; failure shows one error and keeps the form and all page data |
| Store.Shortfall | frontend/src/pages/Store.js:35 | a positive number of coins that, added to the balance, makes up the cost |
| Store.ButtonFor | frontend/src/pages/Store.js:80-114 | the button is disabled and reads "Not Enough Coins" exactly when the reward is unaffordable |
| Store.RedeemAsWritten | frontend/src/pages/Store.js:32-43 | the handler refuses exactly the unaffordable rewards and never reaches checkout |
| Store.AffordableRedeemCrashes | frontend/src/pages/Store.js:42 | 100 coins and a 50-coin reward end in an exception |
| Store.Redeem | frontend/src/pages/Store.js:32-43 | never crashes; checkout with the reward exactly when affordable; otherwise the refusal names the shortfall |
| Store.RedeemFixesOnlyTheCrash | frontend/src/pages/Store.js:32-43 | the written and the corrected handler agree on every refusal and differ only where the written one crashes |
| Store.EnabledButtonProceeds | frontend/src/pages/Store.js:110-114 | a press on an enabled button reaches checkout |
| Store.RefusalNamesTheShortfall | frontend/src/pages/Store.js:33-37 | equal refusals name equal shortfalls |
| Reminders.Badge | frontend/src/components/Reminders.js:33-37 | the badge appears exactly when there are reminders and shows their number |
| Reminders.TimeLabelPlural | frontend/src/components/Reminders.js:93 | the time label says "In" and the hours, with "s" exactly when not 1 |
| Reminders.CardFor | frontend/src/components/Reminders.js:85-93 | a card shows the skill, the role label and the time label |
| Reminders.PanelFor | frontend/src/components/Reminders.js:60-98 | the empty text exactly when there are no reminders, else one card per reminder in order |
| Reminders.BadgeCountsCards | frontend/src/components/Reminders.js:33-67 | the badge is shown exactly when cards are listed, and counts them |
| Reminders.CardShowsRole | frontend/src/components/Reminders.js:89 | a mentor's and a learner's card differ in the role line |
| Reminders.RemindersBell.constructor | frontend/src/components/Reminders.js:7-8 | the bell starts with no reminders and closed |
| Reminders.RemindersBell.Refresh | frontend/src/components/Reminders.js:16-23 | a response replaces the list; a failure keeps it |
| Reminders.RemindersBell.ClickBell | frontend/src/components/Reminders.js:28 | the bell toggles the dropdown |
| Reminders.RemindersBell.Close | frontend/src/components/Reminders.js:52 | the close button closes it |
| AIAssistant.LocalSessionId | frontend/src/components/AIAssistant.js:16-20 | a local id starts with "chat_" and carries the clock |
| AIAssistant.LocalSessionIdsDiffer | frontend/src/components/AIAssistant.js:16-20 | ids made at different instants differ |
| AIAssistant.SendDisabledIff | frontend/src/components/AIAssistant.js:27 | sending is refused exactly while waiting or when the input is white space only |
| AIAssistant.ChatPanel.constructor | frontend/src/components/AIAssistant.js:9-13 | the panel starts closed, empty and without a session id |
| AIAssistant.ChatPanel.SetOpen | frontend/src/components/AIAssistant.js:16-20 | opening a closed panel without a session id makes one from the clock; otherwise the id is kept |
| AIAssistant.ChatPanel.Type | frontend/src/components/AIAssistant.js:118 | the input holds what was typed |
| AIAssistant.ChatPanel.BeginSend | frontend/src/components/AIAssistant.js:26-33 | sends exactly when the guard allows: the trimmed text is appended and sent with the session id, the input is cleared and the panel waits |
| AIAssistant.ChatPanel.FinishSend | frontend/src/components/AIAssistant.js:34-47 | the reply, or the fallback text with one error toast, is appended; a reply replaces the session id; waiting ends |
| AIAssistant.SentMessageTrimmed | frontend/src/components/AIAssistant.js:27-29 | a sent message is non-empty and neither starts nor ends with white space |
| Common.Trim | frontend/src/components/AIAssistant.js:27 | the trimmed text is the middle of the input with only white space cut from both ends |
| Common.TrimKeepsUnpadded | frontend/src/components/AIAssistant.js:27 | a text that neither starts nor ends with white space is its own trim |
| Common.BlankIffAllSpace | frontend/src/pages/P2P.js:60 | a text trims to nothing exactly when it is all white space |
| Common.NatToStringRoundTrip | frontend/src/pages/Store.js:35 | the decimal text of a number reads back as that number |
| Common.IntToStringInjective | frontend/src/pages/Store.js:35 | different numbers render as different texts |
| Common.Round | frontend/src/pages/CourseDetail.js:77 | the rounded value is the integer nearest above half-way, as Math.round rounds |

## Left out

- Authentication: signup, login, JWT issue and check, and bcrypt. A caller is given by user id. An unknown id gets 401, as `get_current_user` refuses a token whose user is gone.
- MongoDB plumbing: `_id` and `password_hash` projections, and the seed and test scripts. Collections are maps keyed by id.
- Fresh ids: the service draws uuid4 values; the model uses a counter, which makes every new id fresh by construction.
- Request validation (422 responses): requests are well-typed values.
- Floating point: scores and progress are exact reals, so rounding in IEEE doubles is not modelled.
- The LLM recommendation endpoint and the chat endpoint's handler are not part of this model. The client formats whatever text it receives, and chat replies are parameters.
- The handlers of `/reminders`, `/notifications/settings` and `/mentor/profile` are not part of this model. Their responses are parameters of the client methods.
- Mentor rating averages and the profile page's progress percentages are display arithmetic that is not modelled.
- Clocks, timers and polling intervals:
  - the dashboard's 5-minute poll is one `CheckNotifications` call per tick;
  - `Date.now()` and the difference between a booking date and now are parameters;
  - a date that does not parse (NaN) is the absent elapsed time.
- Concurrency:
  - overlapping requests, stale React closures and the order of state updates within one render are not modelled;
  - each handler runs to completion in one method call.
- Presentation is not modelled: toast descriptions, icons and durations, JSX layout, animations, scroll-into-view, and the mojibake in the dashboard's toast icon.
- Text input setters other than the chat box (skill, booking and profile form fields) are direct field writes and have no methods.
- The store's `fetchData` and its loading flag are not modelled; `Store.Redeem` takes the balance and the reward as values.
- ServerRules.Leaderboard: rows with equal coins may come in any order, as MongoDB's sort leaves ties unordered. The contract fixes no order among ties.
- Dashboard.DashboardPage.CheckNotifications: the `/reminders` handler is not part of this model, and `hours_until` is taken to be an integer.
- ReminderText.HoursTextShape: assumes an integer `hours_until`; a fractional value such as 0.5 would render as "0.5 hours", a text the model cannot produce.
- Reminders.TimeLabelPlural: assumes an integer `hours_until`, for the same reason.
- Dashboard.ToastMessageShape: assumes an integer `hours_until`, for the same reason.
- Dashboard.RenderRecommendations: an empty recommendation text is rendered as no entries; the page shows its "Loading recommendations..." placeholder instead (Dashboard.js lines 181 and 245-248), which is presentation and not modelled.
- Dashboard.Classify: the pattern `^(\d+)\.\s*(.+)$` is modelled for ASCII digits; `.` is any character but a line terminator, and `\s` is JavaScript's white space set.

## Findings

| source | as written | input that shows it | evidently intended | confidence | as-written member | corrected member |
|---|---|---|---|---|---|---|
| frontend/src/pages/Store.js:42 | the affordable branch of `handleRedeem` calls `navigate('/checkout', …)`, but the page never defines or imports `navigate`, so the call throws a ReferenceError | a user with 100 coins presses "Redeem Now" on a 50-coin reward | go to the checkout page carrying the reward | high (not executed) | Store.RedeemAsWritten (Store.AffordableRedeemCrashes) | Store.Redeem |
