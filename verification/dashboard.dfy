/**
 * frontend/src/pages/Dashboard.js: the urgent-reminder toasts of each poll,
 * and the parsing of the recommendation text into headings, bullets and
 * paragraphs.
 */
module Dashboard {
  import opened Common
  import opened ReminderText

  // ---------------------------------------------------------------------
  // Urgent-reminder toasts (checkNotifications)
  // ---------------------------------------------------------------------

  /** A reminder is urgent when its session starts within the hour (or has started). */
  predicate IsUrgent(r: Reminder) {
    r.hoursUntil <= 1
  }

  /** The urgent reminders, in the order the server sent them. */
  function UrgentReminders(rs: seq<Reminder>): (urgent: seq<Reminder>)
    ensures |urgent| <= |rs|
    ensures forall i :: 0 <= i < |urgent| ==> IsUrgent(urgent[i])
  {
    if rs == [] then []
    else if IsUrgent(rs[0]) then [rs[0]] + UrgentReminders(rs[1..])
    else UrgentReminders(rs[1..])
  }

  /** The filter keeps exactly the urgent reminders. */
  lemma {:induction false} UrgentRemindersMembers(rs: seq<Reminder>)
    ensures forall r :: r in UrgentReminders(rs) <==> r in rs && IsUrgent(r)
  {
    if rs != [] {
      UrgentRemindersMembers(rs[1..]);
      assert forall r :: r in rs <==> r == rs[0] || r in rs[1..];
    }
  }

  /** `<role> "<skill>" starts in <h> hour[s]!` */
  function ToastMessage(r: Reminder): string {
    RoleLabel(r.isMentor) + " \"" + r.skill + "\" starts in " + HoursText(r.hoursUntil) + "!"
  }

  /** The message names the role and the skill, and says "hours" for every count but 1. */
  lemma ToastMessageShape(r: Reminder)
    ensures RoleLabel(r.isMentor) + " \"" + r.skill + "\" starts in " <= ToastMessage(r)
    ensures |ToastMessage(r)| >= 2 && ToastMessage(r)[|ToastMessage(r)| - 1] == '!'
    ensures ToastMessage(r)[|ToastMessage(r)| - 2] == 's' <==> r.hoursUntil != 1
  {
    HoursTextShape(r.hoursUntil);
    var h := HoursText(r.hoursUntil);
    var m := ToastMessage(r);
    assert m[|m| - 2] == h[|h| - 1];
  }

  /** The text of each reminder's toast, in order. */
  function MessagesFor(rs: seq<Reminder>): (ms: seq<string>)
    ensures |ms| == |rs|
    ensures forall i :: 0 <= i < |rs| ==> ms[i] == ToastMessage(rs[i])
  {
    if rs == [] then [] else [ToastMessage(rs[0])] + MessagesFor(rs[1..])
  }

  /** One info toast per message, in order. */
  function InfoToasts(ms: seq<string>): (ts: seq<Toast>)
    ensures |ts| == |ms|
    ensures forall i :: 0 <= i < |ms| ==> ts[i] == Info(ms[i])
  {
    if ms == [] then [] else [Info(ms[0])] + InfoToasts(ms[1..])
  }

  /** The toasts one successful poll shows: one per urgent reminder. */
  function PollToasts(rs: seq<Reminder>): (ts: seq<Toast>)
    ensures |ts| == |UrgentReminders(rs)| <= |rs|
  {
    InfoToasts(MessagesFor(UrgentReminders(rs)))
  }

  /** Every toast of a poll announces an urgent reminder of the response. */
  lemma PollAnnouncesOnlyUrgent(rs: seq<Reminder>)
    ensures forall t :: t in PollToasts(rs) ==> exists r :: r in rs && IsUrgent(r) && t == Info(ToastMessage(r))
  {
    var urgent := UrgentReminders(rs);
    var ts := PollToasts(rs);
    UrgentRemindersMembers(rs);
    forall t | t in ts ensures exists r :: r in rs && IsUrgent(r) && t == Info(ToastMessage(r)) {
      var i :| 0 <= i < |ts| && ts[i] == t;
      assert urgent[i] in urgent;
    }
  }

  /** Every urgent reminder of the response is announced by the poll. */
  lemma PollAnnouncesEveryUrgent(rs: seq<Reminder>)
    ensures forall r :: r in rs && IsUrgent(r) ==> Info(ToastMessage(r)) in PollToasts(rs)
  {
    var urgent := UrgentReminders(rs);
    var ts := PollToasts(rs);
    UrgentRemindersMembers(rs);
    forall r | r in rs && IsUrgent(r) ensures Info(ToastMessage(r)) in ts {
      var i :| 0 <= i < |urgent| && urgent[i] == r;
      assert ts[i] == Info(ToastMessage(r));
    }
  }

  class DashboardPage {
    /** Every toast shown so far, oldest first. */
    var toasts: seq<Toast>

    constructor ()
      ensures toasts == []
    {
      toasts := [];
    }

    /**
     * One poll of GET /reminders. Every urgent reminder is announced again on
     * every poll: nothing remembers what was already shown. A failed request
     * is only logged to the console.
     */
    method CheckNotifications(res: Fetch<seq<Reminder>>)
      modifies this
      ensures res.FetchFailed? ==> toasts == old(toasts)
      ensures res.Fetched? ==> toasts == old(toasts) + PollToasts(res.value)
    {
      if res.Fetched? {
        var urgent := UrgentReminders(res.value);
        Announce(MessagesFor(urgent));
      }
    }

    /** `forEach` over the messages: one info toast each, in order. */
    method Announce(messages: seq<string>)
      modifies this
      ensures toasts == old(toasts) + InfoToasts(messages)
    {
      ghost var all := InfoToasts(messages);
      var i := 0;
      while i < |messages|
        invariant 0 <= i <= |messages|
        invariant toasts == old(toasts) + all[..i]
      {
        assert all[..i + 1] == all[..i] + [Info(messages[i])];
        toasts := toasts + [Info(messages[i])];
        i := i + 1;
      }
      assert all[..i] == all;
    }
  }

  /** Two polls that see the same urgent reminder announce it twice: nothing remembers what was shown. */
  lemma NoSuppressionAcrossPolls(rs: seq<Reminder>, r: Reminder)
    requires r in rs && IsUrgent(r)
    ensures multiset(PollToasts(rs) + PollToasts(rs))[Info(ToastMessage(r))] >= 2
  {
    PollAnnouncesEveryUrgent(rs);
    ShownTwice(PollToasts(rs), Info(ToastMessage(r)));
  }

  lemma ShownTwice(ts: seq<Toast>, t: Toast)
    requires t in ts
    ensures multiset(ts + ts)[t] >= 2
  {
    assert multiset(ts + ts) == multiset(ts) + multiset(ts);
  }

  // ---------------------------------------------------------------------
  // Recommendation text
  // ---------------------------------------------------------------------

  /** `text.split(sep)`: the pieces between separators; there is always at least one. */
  function Split(text: string, sep: char): (parts: seq<string>)
    ensures |parts| >= 1
    ensures forall p :: p in parts ==> sep !in p
  {
    if text == [] then [[]]
    else
      var rest := Split(text[1..], sep);
      if text[0] == sep then [[]] + rest
      else
        assert forall p :: p in rest[1..] ==> p in rest;
        [[text[0]] + rest[0]] + rest[1..]
  }

  /** `parts.join(sep)`. */
  function Join(parts: seq<string>, sep: char): string
    requires |parts| >= 1
  {
    if |parts| == 1 then parts[0] else parts[0] + [sep] + Join(parts[1..], sep)
  }

  /** Splitting loses nothing: joining the pieces back gives the text. */
  lemma {:induction false} SplitJoin(text: string, sep: char)
    ensures Join(Split(text, sep), sep) == text
  {
    if text != [] {
      var rest := Split(text[1..], sep);
      SplitJoin(text[1..], sep);
      if text[0] != sep {
        var parts := [[text[0]] + rest[0]] + rest[1..];
        if |rest| > 1 {
          assert parts[1..] == rest[1..];
          assert Join(rest, sep) == rest[0] + [sep] + Join(rest[1..], sep);
        }
      }
    }
  }

  /** Whether `pat` occurs in `s` at position `i`. */
  predicate OccursAt(s: string, pat: string, i: int) {
    0 <= i && i + |pat| <= |s| && s[i..i + |pat|] == pat
  }

  /** An occurrence in the tail of `s` is an occurrence in `s`, one place further on. */
  lemma OccursInTail(s: string, pat: string)
    requires |s| > 0
    ensures forall i :: OccursAt(s[1..], pat, i) ==> OccursAt(s, pat, i + 1)
  {
    forall i | OccursAt(s[1..], pat, i) ensures OccursAt(s, pat, i + 1) {
      assert s[1..][i..i + |pat|] == s[i + 1..i + 1 + |pat|];
    }
  }

  /** `s.replace(/pat/g, '')`: removes the occurrences of `pat`, scanning left to right. */
  function RemoveAll(s: string, pat: string): (r: string)
    requires |pat| > 0
    ensures |r| <= |s|
    decreases |s|
  {
    if |s| < |pat| then s
    else if s[..|pat|] == pat then RemoveAll(s[|pat|..], pat)
    else [s[0]] + RemoveAll(s[1..], pat)
  }

  /** A text without the pattern comes back unchanged. */
  lemma {:induction false} RemoveAllWithoutOccurrence(s: string, pat: string)
    requires |pat| > 0
    requires forall i :: !OccursAt(s, pat, i)
    ensures RemoveAll(s, pat) == s
    decreases |s|
  {
    if |s| >= |pat| {
      RemoveAllStep(s, pat);
      OccursInTail(s, pat);
      RemoveAllWithoutOccurrence(s[1..], pat);
      assert s == [s[0]] + s[1..];
    }
  }

  /** Where the pattern does not start, the scan keeps the first character and moves on. */
  lemma RemoveAllStep(s: string, pat: string)
    requires |pat| > 0 && |s| >= |pat| && !OccursAt(s, pat, 0)
    ensures RemoveAll(s, pat) == [s[0]] + RemoveAll(s[1..], pat)
  {
    assert s[..|pat|] != pat;
  }

  lemma TailStaysFree(a: string, b: string, pat: string)
    requires a != []
    requires forall i :: 0 <= i < |a| ==> !OccursAt(a + b, pat, i)
    ensures forall i :: 0 <= i < |a[1..]| ==> !OccursAt(a[1..] + b, pat, i)
  {
    assert (a + b)[1..] == a[1..] + b;
    OccursInTail(a + b, pat);
  }

  /** The text before the first occurrence is kept as it is, and the scan carries on after it. */
  lemma {:induction false} RemoveAllKeepsPrefix(a: string, b: string, pat: string)
    requires |pat| > 0
    requires forall i :: 0 <= i < |a| ==> !OccursAt(a + b, pat, i)
    ensures RemoveAll(a + b, pat) == a + RemoveAll(b, pat)
    decreases |a|
  {
    if a == [] {
      assert a + b == b;
    } else if |a + b| >= |pat| {
      var s := a + b;
      RemoveAllStep(s, pat);
      TailStaysFree(a, b, pat);
      RemoveAllKeepsPrefix(a[1..], b, pat);
      assert s[0] == a[0] && s[1..] == a[1..] + b;
      AppendAssoc([a[0]], a[1..], RemoveAll(b, pat));
      assert a == [a[0]] + a[1..];
    } else {
      assert RemoveAll(b, pat) == b;
    }
  }

  /** An occurrence after text free of the pattern is removed, and the rest is scanned the same way. */
  lemma RemoveAllDropsOccurrence(a: string, b: string, pat: string)
    requires |pat| > 0
    requires forall i :: 0 <= i < |a| ==> !OccursAt(a + pat + b, pat, i)
    ensures RemoveAll(a + pat + b, pat) == a + RemoveAll(b, pat)
  {
    assert a + pat + b == a + (pat + b);
    RemoveAllKeepsPrefix(a, pat + b, pat);
    assert (pat + b)[..|pat|] == pat;
    assert (pat + b)[|pat|..] == b;
  }

  /** `pat` is `n >= 1` copies of the character `c` (as "**" and "###" are). */
  predicate IsRun(pat: string, c: char) {
    |pat| >= 1 && forall i :: 0 <= i < |pat| ==> pat[i] == c
  }

  /** `s` starts with `m` copies of `c`. */
  predicate StartsWithRun(s: string, c: char, m: nat) {
    m <= |s| && forall i :: 0 <= i < m ==> s[i] == c
  }

  lemma {:induction false} RemoveAllKeepsNoRunPrefix(s: string, pat: string, c: char, m: nat)
    requires IsRun(pat, c) && 1 <= m <= |pat|
    requires !StartsWithRun(s, c, m)
    ensures !StartsWithRun(RemoveAll(s, pat), c, m)
    decreases |s|
  {
    if |s| >= |pat| {
      if s[..|pat|] == pat {
        assert forall i :: 0 <= i < m ==> s[i] == pat[i];
      } else if s[0] == c {
        assert m >= 2;
        assert forall i :: 0 <= i < |s| - 1 ==> s[1..][i] == s[i + 1];
        RemoveAllKeepsNoRunPrefix(s[1..], pat, c, m - 1);
        var t := RemoveAll(s[1..], pat);
        assert RemoveAll(s, pat) == [s[0]] + t;
        assert forall i :: 0 <= i < |t| ==> t[i] == ([s[0]] + t)[i + 1];
      } else {
        assert RemoveAll(s, pat) == [s[0]] + RemoveAll(s[1..], pat);
        assert RemoveAll(s, pat)[0] != c;
      }
    }
  }

  /** After removing a run of one character, no copy of that run is left. */
  lemma {:induction false} RemoveAllLeavesNoRun(s: string, pat: string, c: char)
    requires IsRun(pat, c)
    ensures forall i :: !OccursAt(RemoveAll(s, pat), pat, i)
    decreases |s|
  {
    var r := RemoveAll(s, pat);
    if |s| >= |pat| {
      if s[..|pat|] == pat {
        RemoveAllLeavesNoRun(s[|pat|..], pat, c);
      } else {
        var t := RemoveAll(s[1..], pat);
        RemoveAllLeavesNoRun(s[1..], pat, c);
        assert !StartsWithRun(s, c, |pat|);
        RemoveAllKeepsNoRunPrefix(s, pat, c, |pat|);
        forall i | OccursAt(r, pat, i) ensures false {
          if i == 0 {
            assert StartsWithRun(r, c, |pat|) by {
              assert forall k :: 0 <= k < |pat| ==> r[k] == r[0..|pat|][k];
            }
          } else {
            assert r[i..i + |pat|] == t[i - 1..i - 1 + |pat|];
            assert OccursAt(t, pat, i - 1);
          }
        }
      }
    }
  }

  /** The cleaning of one line: every "**", then every "###", removed; then trimmed. */
  function CleanLine(line: string): (clean: string)
    ensures forall i :: !OccursAt(clean, "###", i)
    ensures clean == [] || (!IsSpace(clean[0]) && !IsSpace(clean[|clean| - 1]))
  {
    var noBold := RemoveAll(line, "**");
    var noHeads := RemoveAll(noBold, "###");
    RemoveAllLeavesNoRun(noBold, "###", '#');
    var clean := Trim(noHeads);
    NoOccurrenceInSlice(noHeads, "###", TrimOffset(noHeads), TrimOffset(noHeads) + |clean|);
    clean
  }

  /** A line without markup is only trimmed. */
  lemma CleanLineWithoutMarkup(line: string)
    requires forall i :: !OccursAt(line, "**", i)
    requires forall i :: !OccursAt(line, "###", i)
    ensures CleanLine(line) == Trim(line)
  {
    RemoveAllWithoutOccurrence(line, "**");
    RemoveAllWithoutOccurrence(line, "###");
  }

  /** A bold line ("**Title**") is shown as its trimmed text without the markers. */
  lemma CleanLineUnwrapsBold(x: string)
    requires forall i :: 0 <= i < |x| ==> x[i] != '*'
    requires forall i :: !OccursAt(x, "###", i)
    ensures CleanLine("**" + x + "**") == Trim(x)
  {
    BoldMarkersRemoved(x);
    RemoveAllWithoutOccurrence(x, "###");
  }

  /** Removing "**" from "**" + x + "**" leaves x when x has no '*'. */
  lemma BoldMarkersRemoved(x: string)
    requires forall i :: 0 <= i < |x| ==> x[i] != '*'
    ensures RemoveAll("**" + x + "**", "**") == x
  {
    NoMarkerBeforeEnd(x, x + "**");
    UnwrapMarkers(x, "**");
  }

  /** A text wrapped in a pattern it does not otherwise contain comes back unwrapped. */
  lemma UnwrapMarkers(x: string, pat: string)
    requires |pat| > 0
    requires forall i :: 0 <= i < |x| ==> !OccursAt(x + pat, pat, i)
    ensures RemoveAll(pat + x + pat, pat) == x
  {
    assert pat + x + pat == [] + pat + (x + pat);
    RemoveAllDropsOccurrence([], x + pat, pat);
    assert x + pat == x + pat + [];
    RemoveAllDropsOccurrence(x, [], pat);
  }

  lemma NoMarkerBeforeEnd(x: string, y: string)
    requires forall i :: 0 <= i < |x| ==> x[i] != '*'
    requires y == x + "**"
    ensures forall i :: 0 <= i < |x| ==> !OccursAt(y, "**", i)
  {
    forall i | 0 <= i < |x| ensures !OccursAt(y, "**", i) {
      assert y[i] == x[i];
    }
  }

  /** A piece of a string has no occurrence of a pattern the whole string lacks. */
  lemma NoOccurrenceInSlice(s: string, pat: string, lo: nat, hi: nat)
    requires lo <= hi <= |s|
    requires forall i :: !OccursAt(s, pat, i)
    ensures forall i :: !OccursAt(s[lo..hi], pat, i)
  {
    var w := s[lo..hi];
    forall i ensures !OccursAt(w, pat, i) {
      if 0 <= i && i + |pat| <= |w| {
        assert forall k :: i <= k < i + |pat| ==> w[k] == s[lo + k];
        assert w[i..i + |pat|] == s[lo + i..lo + i + |pat|];
        assert !OccursAt(s, pat, lo + i);
      }
    }
  }

  /** How a cleaned line is displayed. */
  datatype Line = Heading(number: string, title: string) | Bullet(text: string) | Paragraph(text: string) | Blank

  /** The length of the run of decimal digits that `s` starts with. */
  function LeadingDigits(s: string): (n: nat)
    ensures n <= |s| && AllDigits(s[..n])
    ensures n < |s| ==> !IsDigit(s[n])
  {
    if s != [] && IsDigit(s[0]) then
      var n := LeadingDigits(s[1..]);
      assert s[..n + 1] == [s[0]] + s[1..][..n];
      n + 1
    else 0
  }

  predicate NoLineTerminator(s: string) {
    forall i :: 0 <= i < |s| ==> !IsLineTerminator(s[i])
  }

  /**
   * The match of `\s*(.+)$` at the start of `rest`: the title. `\s*` is
   * greedy, and `.` matches anything but a line terminator.
   */
  function MatchTitle(rest: string): (title: Option<string>)
    ensures title.Some? ==> && 0 < |title.value| <= |rest| && NoLineTerminator(title.value)
                            && title.value == rest[|rest| - |title.value|..]
                            && AllSpace(rest[..|rest| - |title.value|])
                            && (!IsSpace(title.value[0]) || |title.value| == 1)
  {
    var t := TrimStart(rest);
    if t != [] then
      if NoLineTerminator(t) then Some(t) else None
    else if rest != [] && !IsLineTerminator(rest[|rest| - 1]) then
      // \s* gives back its last character so that .+ matches one
      assert AllSpace(rest[..|rest| - 0]);
      Some([rest[|rest| - 1]])
    else None
  }

  /**
   * Every white space followed by a title of that kind is matched; the title
   * captured is exactly that title when it starts with a character that is
   * not white space (or is a single character, all that greedy `\s*` leaves).
   */
  lemma MatchTitleComplete(ws: string, title: string)
    requires AllSpace(ws) && |title| > 0 && NoLineTerminator(title)
    ensures MatchTitle(ws + title).Some?
    ensures (!IsSpace(title[0]) || |title| == 1) ==> MatchTitle(ws + title) == Some(title)
  {
    var rest := ws + title;
    var t := TrimStart(rest);
    var j := |rest| - |t|;
    if t != [] {
      assert forall i :: 0 <= i < |t| ==> t[i] == title[j - |ws| + i];
      if !IsSpace(title[0]) {
        assert rest[|ws|] == title[0];
        assert j == |ws|;
        assert t == title;
      }
    } else {
      assert rest[|rest| - 1] == title[|title| - 1];
    }
  }

  /** `s` splits as digits, ".", white space, then a title of at least one character with no line terminator. */
  ghost predicate HeadingShape(s: string, number: string, title: string) {
    exists ws :: && s == number + "." + ws + title
                 && |number| > 0 && AllDigits(number) && AllSpace(ws)
                 && |title| > 0 && NoLineTerminator(title)
                 && (!IsSpace(title[0]) || |title| == 1)
  }

  /** The match of `/^(\d+)\.\s*(.+)$/`: the leading digits and the title, which split the line as the pattern says. */
  function MatchHeading(s: string): (m: Option<(string, string)>)
    ensures m.Some? ==> HeadingShape(s, m.value.0, m.value.1)
  {
    var k := LeadingDigits(s);
    if k == 0 || k == |s| || s[k] != '.' then None
    else
      var rest := s[k + 1..];
      match MatchTitle(rest)
      case Some(title) =>
        var n := |rest| - |title|;
        SplitAt(rest, n);
        HeadingShapeOf(s, k, rest[..n], title);
        Some((s[..k], title))
      case None => None
  }

  lemma SplitAt(s: string, n: nat)
    requires n <= |s|
    ensures s == s[..n] + s[n..]
  {
  }

  lemma HeadingShapeOf(s: string, k: nat, ws: string, title: string)
    requires 0 < k < |s| && s[k] == '.' && AllDigits(s[..k])
    requires s[k + 1..] == ws + title && AllSpace(ws)
    requires |title| > 0 && NoLineTerminator(title) && (!IsSpace(title[0]) || |title| == 1)
    ensures HeadingShape(s, s[..k], title)
  {
    assert s == s[..k] + [s[k]] + s[k + 1..];
    assert s == s[..k] + "." + ws + title;
  }

  /**
   * Every line of that shape is matched as a heading with that number, and
   * with that title when the title does not start with white space.
   */
  lemma MatchHeadingComplete(s: string, number: string, ws: string, title: string)
    requires s == number + "." + ws + title
    requires |number| > 0 && AllDigits(number) && AllSpace(ws)
    requires |title| > 0 && NoLineTerminator(title)
    ensures MatchHeading(s).Some? && MatchHeading(s).value.0 == number
    ensures (!IsSpace(title[0]) || |title| == 1) ==> MatchHeading(s) == Some((number, title))
  {
    var m := |number|;
    assert s[..m] == number;
    assert s[m + 1..] == ws + title;
    LeadingDigitsStopAt(s, m);
    MatchTitleComplete(ws, title);
  }

  /** The leading digits end at the first character that is not a digit. */
  lemma LeadingDigitsStopAt(s: string, m: nat)
    requires m < |s| && !IsDigit(s[m]) && AllDigits(s[..m])
    ensures LeadingDigits(s) == m
  {
    var k := LeadingDigits(s);
    assert forall i :: 0 <= i < k ==> IsDigit(s[..k][i]) && s[..k][i] == s[i];
    assert forall i :: 0 <= i < m ==> IsDigit(s[..m][i]) && s[..m][i] == s[i];
  }

  /** The bullet pattern `^-\s*` replaced by nothing, for a line starting with '-': the dash and the white space after it go. */
  function BulletText(line: string): (text: string)
    requires |line| > 0 && line[0] == '-'
    ensures |text| < |line| && text == line[|line| - |text|..]
    ensures AllSpace(line[1..|line| - |text|])
    ensures text == [] || !IsSpace(text[0])
  {
    var text := TrimStart(line[1..]);
    assert line[1..][..|line| - 1 - |text|] == line[1..|line| - |text|];
    text
  }

  /** A heading when the heading pattern matches, else a bullet when the line starts with '-', else a paragraph unless empty. */
  function Classify(clean: string): (line: Line)
    ensures line.Heading? <==> MatchHeading(clean).Some?
    ensures line.Heading? ==> HeadingShape(clean, line.number, line.title)
    ensures line.Bullet? <==> MatchHeading(clean).None? && |clean| > 0 && clean[0] == '-'
    ensures line.Paragraph? ==> line.text == clean && clean != []
    ensures line.Blank? <==> clean == []
  {
    match MatchHeading(clean)
    case Some(m) => Heading(m.0, m.1)
    case None =>
      if |clean| > 0 && clean[0] == '-' then Bullet(BulletText(clean))
      else if clean != [] then Paragraph(clean)
      else Blank
  }

  /** `lines.filter(l => l.trim())`: the lines that are not blank after trimming, in order. */
  function NonBlankLines(lines: seq<string>): (kept: seq<string>)
    ensures |kept| <= |lines|
    ensures forall l :: l in kept <==> l in lines && Trim(l) != []
  {
    if lines == [] then []
    else
      var rest := NonBlankLines(lines[1..]);
      assert forall l :: l in lines <==> l == lines[0] || l in lines[1..];
      if Trim(lines[0]) != [] then [lines[0]] + rest else rest
  }

  /** The filter keeps every line that is not blank as often as it occurs, and no blank line. */
  lemma {:induction false} NonBlankLinesCount(lines: seq<string>, l: string)
    ensures multiset(NonBlankLines(lines))[l] == if Trim(l) != [] then multiset(lines)[l] else 0
  {
    if lines != [] {
      var h, t := lines[0], lines[1..];
      assert lines == [h] + t;
      NonBlankLinesCons(h, t);
      NonBlankLinesCount(t, l);
      var k := if Trim(h) != [] then [h] else [];
      assert multiset(k + NonBlankLines(t)) == multiset(k) + multiset(NonBlankLines(t));
      assert multiset(lines) == multiset([h]) + multiset(t);
    }
  }

  lemma AppendAssoc<T>(x: seq<T>, y: seq<T>, z: seq<T>)
    ensures x + (y + z) == (x + y) + z
  {
  }

  /** The filter decides on the first line alone, then filters the rest. */
  lemma NonBlankLinesCons(h: string, t: seq<string>)
    ensures NonBlankLines([h] + t) == (if Trim(h) != [] then [h] else []) + NonBlankLines(t)
  {
    assert ([h] + t)[0] == h && ([h] + t)[1..] == t;
  }

  /** The filter keeps the order of the lines: filtering a concatenation filters each part. */
  lemma {:induction false} NonBlankLinesAppend(a: seq<string>, b: seq<string>)
    ensures NonBlankLines(a + b) == NonBlankLines(a) + NonBlankLines(b)
  {
    if a == [] {
      assert a + b == b;
    } else {
      var h, t := a[0], a[1..];
      assert a == [h] + t;
      assert a + b == [h] + (t + b);
      NonBlankLinesCons(h, t + b);
      NonBlankLinesCons(h, t);
      NonBlankLinesAppend(t, b);
      var k := if Trim(h) != [] then [h] else [];
      AppendAssoc(k, NonBlankLines(t), NonBlankLines(b));
    }
  }

  function ClassifyAll(lines: seq<string>): (shown: seq<Line>)
    ensures |shown| == |lines|
    ensures forall i :: 0 <= i < |lines| ==> shown[i] == Classify(CleanLine(lines[i]))
  {
    if lines == [] then [] else [Classify(CleanLine(lines[0]))] + ClassifyAll(lines[1..])
  }

  /** The display of the recommendation text: one entry per line that is not blank. */
  function RenderRecommendations(text: string): (shown: seq<Line>)
    ensures |shown| == |NonBlankLines(Split(text, '\n'))|
  {
    ClassifyAll(NonBlankLines(Split(text, '\n')))
  }

  /** A text without the separator is a single piece. */
  lemma {:induction false} SplitWithoutSeparator(text: string, sep: char)
    requires sep !in text
    ensures Split(text, sep) == [text]
  {
    if text != [] {
      assert forall c :: c in text[1..] ==> c in text;
      SplitWithoutSeparator(text[1..], sep);
      assert [text[0]] + text[1..] == text;
    }
  }

  /** A pattern cannot occur in a text that lacks its first character. */
  lemma NoOccurrenceWithoutFirst(s: string, pat: string)
    requires |pat| > 0 && forall k :: 0 <= k < |s| ==> s[k] != pat[0]
    ensures forall i :: !OccursAt(s, pat, i)
  {
    forall i | 0 <= i && i + |pat| <= |s| ensures !OccursAt(s, pat, i) {
      assert s[i..i + |pat|][0] == s[i];
    }
  }

  /** The line "**###" is made only of markup: removing the markers leaves nothing. */
  lemma MarkupOnlyCleansToEmpty()
    ensures CleanLine("**###") == []
  {
    assert [] + "**" + "###" == "**###";
    RemoveAllDropsOccurrence([], "###", "**");
    NoOccurrenceWithoutFirst("###", "**");
    RemoveAllWithoutOccurrence("###", "**");
    assert [] + "###" + [] == "###";
    RemoveAllDropsOccurrence([], [], "###");
  }

  /**
   * The line "**###" is not blank, so the filter keeps it, but it cleans to
   * nothing, so the text shows one `Blank` entry.
   */
  lemma MarkupOnlyLineShowsBlank()
    ensures Trim("**###") == "**###"
    ensures RenderRecommendations("**###") == [Blank]
  {
    TrimKeepsUnpadded("**###");
    SplitWithoutSeparator("**###", '\n');
    MarkupOnlyCleansToEmpty();
    NonBlankLinesCons("**###", []);
    assert ClassifyAll(["**###"]) == [Classify(CleanLine("**###"))];
  }
}
