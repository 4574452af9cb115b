/**
 * The reminders bell (frontend/src/components/Reminders.js): the badge with
 * the number of upcoming sessions, the dropdown that lists them, and the
 * refresh that replaces the list.
 */
module Reminders {
  import opened Common
  import opened ReminderText

  /** The badge on the bell: the number of reminders, or no badge at all. */
  function Badge(reminders: seq<Reminder>): (b: Option<nat>)
    ensures b.Some? <==> |reminders| > 0
    ensures b.Some? ==> b.value == |reminders| && b.value > 0
  {
    if |reminders| > 0 then Some(|reminders|) else None
  }

  const NoSessions: string := "No upcoming sessions"

  /** "In <h> hour" or "In <h> hours". */
  function TimeLabel(hours: int): string {
    "In " + HoursText(hours)
  }

  /** The time label starts with the count and ends in "s" exactly when the count is not 1. */
  lemma {:induction false} TimeLabelPlural(hours: int)
    ensures "In " + IntToString(hours) + " hour" <= TimeLabel(hours)
    ensures TimeLabel(hours)[|TimeLabel(hours)| - 1] == 's' <==> hours != 1
  {
    HoursTextShape(hours);
    var h := HoursText(hours);
    assert TimeLabel(hours) == "In " + h;
    assert TimeLabel(hours)[|TimeLabel(hours)| - 1] == h[|h| - 1];
    assert ("In " + IntToString(hours) + " hour") == "In " + (IntToString(hours) + " hour");
  }

  /** One entry of the dropdown: the skill, the role label, and the time label. */
  datatype Card = Card(skill: string, role: string, time: string)

  function CardFor(r: Reminder): (c: Card)
    ensures c.skill == r.skill
    ensures c.role == RoleLabel(r.isMentor)
    ensures c.time == TimeLabel(r.hoursUntil)
  {
    Card(r.skill, RoleLabel(r.isMentor), TimeLabel(r.hoursUntil))
  }

  /** What the open dropdown shows. */
  datatype Panel = EmptyPanel(text: string) | CardList(cards: seq<Card>)

  /** The empty text for no reminders; otherwise one card per reminder, in order. */
  function PanelFor(reminders: seq<Reminder>): (p: Panel)
    ensures p.EmptyPanel? <==> reminders == []
    ensures p.EmptyPanel? ==> p.text == NoSessions
    ensures p.CardList? ==> |p.cards| == |reminders| && forall i :: 0 <= i < |reminders| ==> p.cards[i] == CardFor(reminders[i])
  {
    if reminders == [] then EmptyPanel(NoSessions) else CardList(seq(|reminders|, i requires 0 <= i < |reminders| => CardFor(reminders[i])))
  }

  /** The badge and the panel agree: a badge is shown exactly when the panel lists cards, and it counts them. */
  lemma BadgeCountsCards(reminders: seq<Reminder>)
    ensures Badge(reminders).Some? <==> PanelFor(reminders).CardList?
    ensures Badge(reminders).Some? ==> Badge(reminders).value == |PanelFor(reminders).cards|
  {
  }

  /** A mentor's and a learner's card for the same session differ in the role line. */
  lemma CardShowsRole(r: Reminder)
    ensures CardFor(r).role != CardFor(r.(isMentor := !r.isMentor)).role
  {
    RoleLabelTellsRole(r.isMentor, !r.isMentor);
  }

  class RemindersBell {
    var reminders: seq<Reminder>
    var showDropdown: bool

    constructor ()
      ensures reminders == [] && !showDropdown
    {
      reminders, showDropdown := [], false;
    }

    /** `fetchReminders`: a response replaces the list wholesale; a failure keeps the list shown before. */
    method Refresh(res: Fetch<seq<Reminder>>)
      modifies this`reminders
      ensures res.Fetched? ==> reminders == res.value
      ensures res.FetchFailed? ==> reminders == old(reminders)
    {
      if res.Fetched? {
        reminders := res.value;
      }
    }

    /** The bell opens a closed dropdown and closes an open one. */
    method ClickBell()
      modifies this`showDropdown
      ensures showDropdown == !old(showDropdown)
    {
      showDropdown := !showDropdown;
    }

    /** The close button of the dropdown. */
    method Close()
      modifies this`showDropdown
      ensures !showDropdown
    {
      showDropdown := false;
    }
  }
}
