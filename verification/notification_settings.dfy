/**
 * The notification-settings page (frontend/src/pages/NotificationSettings.js):
 * five switches held in one record, flipped optimistically and put back
 * when the save fails.
 */
module NotificationSettings {
  import opened Common
  import opened ServerRules

  /** The five switches of the page. */
  datatype Settings = Settings(
    sessionReminders: bool,
    quizAchievements: bool,
    coinEarned: bool,
    aiTips: bool,
    urgentOnly: bool)

  /** The name a switch passes to `handleToggle`. */
  datatype SettingKey = SessionReminders | QuizAchievements | CoinEarned | AiTips | UrgentOnly

  /** The record the page starts from: every switch on except "urgent only". */
  const Defaults: Settings := Settings(true, true, true, true, false)

  function Get(s: Settings, key: SettingKey): bool {
    match key
    case SessionReminders => s.sessionReminders
    case QuizAchievements => s.quizAchievements
    case CoinEarned => s.coinEarned
    case AiTips => s.aiTips
    case UrgentOnly => s.urgentOnly
  }

  /** Two records are the same exactly when every switch agrees. */
  lemma SameSwitchesSameSettings(s: Settings, t: Settings)
    ensures s == t <==> forall k :: Get(s, k) == Get(t, k)
  {
    if forall k :: Get(s, k) == Get(t, k) {
      assert Get(s, SessionReminders) == Get(t, SessionReminders);
      assert Get(s, QuizAchievements) == Get(t, QuizAchievements);
      assert Get(s, CoinEarned) == Get(t, CoinEarned);
      assert Get(s, AiTips) == Get(t, AiTips);
      assert Get(s, UrgentOnly) == Get(t, UrgentOnly);
    }
  }

  /** The defaults turn every switch on except "urgent only". */
  lemma DefaultsOnExceptUrgentOnly()
    ensures forall k :: Get(Defaults, k) <==> k != UrgentOnly
  {
  }

  /** `{ ...settings, [key]: !settings[key] }`: the named switch flips and no other changes. */
  function Flip(s: Settings, key: SettingKey): (r: Settings)
    ensures Get(r, key) == !Get(s, key)
    ensures forall k :: k != key ==> Get(r, k) == Get(s, k)
  {
    match key
    case SessionReminders => s.(sessionReminders := !s.sessionReminders)
    case QuizAchievements => s.(quizAchievements := !s.quizAchievements)
    case CoinEarned => s.(coinEarned := !s.coinEarned)
    case AiTips => s.(aiTips := !s.aiTips)
    case UrgentOnly => s.(urgentOnly := !s.urgentOnly)
  }

  /** Flipping the same switch twice gives back the record it started from: two successful toggles undo each other. */
  lemma FlipTwice(s: Settings, key: SettingKey)
    ensures Flip(Flip(s, key), key) == s
  {
    var r := Flip(Flip(s, key), key);
    forall k ensures Get(r, k) == Get(s, k) {
      if k != key {
        assert Get(Flip(s, key), k) == Get(s, k);
      }
    }
    SameSwitchesSameSettings(r, s);
  }

  /** A flip always changes the record, so a toggle is never a no-op. */
  lemma FlipChanges(s: Settings, key: SettingKey)
    ensures Flip(s, key) != s
  {
    assert Get(Flip(s, key), key) != Get(s, key);
  }

  /** What the page did with a settings record, in order. */
  datatype SettingsEvent =
    | Shown(settings: Settings)   // the switches now display this record
    | Saved(settings: Settings)   // this record was sent to POST /notifications/settings

  const SaveDone: string := "Notification settings updated"
  const SaveFailed: string := "Failed to update settings"

  class SettingsPage {
    var user: Option<User>
    var settings: Settings
    var loading: bool
    /** Every record shown or saved, oldest first. */
    var events: seq<SettingsEvent>
    /** Every toast shown, oldest first. */
    var toasts: seq<Toast>

    constructor ()
      ensures user.None? && settings == Defaults && loading && events == [] && toasts == []
    {
      user, settings, loading, events, toasts := None, Defaults, true, [], [];
    }

    /**
     * `fetchData`: the profile, then the stored settings. A truthy body
     * (`Some`) replaces the record wholesale; an empty body or a failed
     * request keeps it; loading ends either way.
     */
    method Load(userRes: Fetch<User>, settingsRes: Fetch<Option<Settings>>)
      modifies this
      ensures !loading
      ensures userRes.Fetched? ==> user == Some(userRes.value)
      ensures userRes.FetchFailed? ==> user == old(user)
      ensures userRes.Fetched? && settingsRes.Fetched? && settingsRes.value.Some? ==>
                settings == settingsRes.value.value
      ensures !(userRes.Fetched? && settingsRes.Fetched? && settingsRes.value.Some?) ==>
                settings == old(settings)
      ensures events == old(events) && toasts == old(toasts)
    {
      if userRes.Fetched? {
        user := Some(userRes.value);
        if settingsRes.Fetched? && settingsRes.value.Some? {
          settings := settingsRes.value.value;
        }
      }
      loading := false;
    }

    /**
     * `handleToggle(key)`: shows the flipped record, then saves it. A save
     * that succeeds keeps it and says so; one that fails shows one error and
     * puts the record from before the toggle back.
     */
    method Toggle(key: SettingKey, saveOk: bool)
      modifies this`settings, this`events, this`toasts
      ensures saveOk ==> settings == Flip(old(settings), key)
      ensures !saveOk ==> settings == old(settings)
      ensures events == old(events)
                + [Shown(Flip(old(settings), key)), Saved(Flip(old(settings), key))]
                + (if saveOk then [] else [Shown(old(settings))])
      ensures toasts == old(toasts) + [if saveOk then Success(SaveDone) else Error(SaveFailed)]
    {
      var snapshot := settings;
      var newSettings := Flip(settings, key);
      settings := newSettings;
      events := events + [Shown(newSettings)];
      events := events + [Saved(newSettings)];
      if saveOk {
        toasts := toasts + [Success(SaveDone)];
      } else {
        toasts := toasts + [Error(SaveFailed)];
        settings := snapshot;
        events := events + [Shown(snapshot)];
      }
    }
  }
}
