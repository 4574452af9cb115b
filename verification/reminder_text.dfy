/**
 * The texts both reminder views build from a reminder: the role label
 * (frontend/src/components/Reminders.js and frontend/src/pages/Dashboard.js
 * write the same two labels and the same plural rule).
 */
module ReminderText {
  import opened Common

  /**
   * A reminder as GET /reminders returns it: the session's skill, whether
   * the user teaches it, and the whole hours until it starts. The handler
   * of that endpoint is not part of this model.
   */
  datatype Reminder = Reminder(skill: string, isMentor: bool, hoursUntil: int)

  const TeachingLabel: string := "Teaching session"
  const LearningLabel: string := "Learning session"

  /** "Teaching session" for the mentor of the session, "Learning session" for its learner. */
  function RoleLabel(isMentor: bool): string {
    if isMentor then TeachingLabel else LearningLabel
  }

  /** The plural suffix of `hour`: "s" for every count except exactly 1. */
  function PluralSuffix(hours: int): string {
    if hours != 1 then "s" else ""
  }

  /** "<h> hour" or "<h> hours". */
  function HoursText(hours: int): string {
    IntToString(hours) + " hour" + PluralSuffix(hours)
  }

  /** The two roles get different labels, so the label tells the user which role they have. */
  lemma RoleLabelTellsRole(a: bool, b: bool)
    ensures RoleLabel(a) == RoleLabel(b) <==> a == b
  {
    if a != b {
      assert RoleLabel(a)[0] != RoleLabel(b)[0];
    }
  }

  /** The hours text starts with the number and says "hours" for every count but 1. */
  lemma HoursTextShape(hours: int)
    ensures IntToString(hours) + " hour" <= HoursText(hours)
    ensures |HoursText(hours)| > 0
    ensures HoursText(hours)[|HoursText(hours)| - 1] == 's' <==> hours != 1
  {
  }
}
