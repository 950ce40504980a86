/** The settings page (`src/pages/Settings.tsx`): the notification
    switches, the profile fields, the theme cards and the avatar initials. */
module Settings {
  import opened Schema

  // ---- Notification switches -----------------------------------------

  datatype Notifications = Notifications(
    dailyReminders: bool,
    moodTracking: bool,
    challengeUpdates: bool,
    communityActivity: bool,
    weeklyReports: bool,
    emailNotifications: bool,
    pushNotifications: bool)

  /** Every flag on except community activity. */
  const InitialNotifications := Notifications(true, true, true, false, true, true, true)

  /** The six switches on the page; `moodTracking` has none. */
  datatype Switch = DailyReminders | ChallengeUpdates | WeeklyReports
                  | CommunityActivity | EmailNotifications | PushNotifications

  /** The flag a switch shows. */
  function Flag(n: Notifications, sw: Switch): bool {
    match sw
    case DailyReminders => n.dailyReminders
    case ChallengeUpdates => n.challengeUpdates
    case WeeklyReports => n.weeklyReports
    case CommunityActivity => n.communityActivity
    case EmailNotifications => n.emailNotifications
    case PushNotifications => n.pushNotifications
  }

  /** The page opens with every switch on except community activity, and
      with mood tracking on. */
  lemma InitialFlags(sw: Switch)
    ensures Flag(InitialNotifications, sw) <==> sw != CommunityActivity
    ensures InitialNotifications.moodTracking
  {
  }

  /** The flags after a switch's `onCheckedChange(checked)`: that switch's
      flag takes the new value and every other flag keeps its own. */
  function WithFlag(n: Notifications, sw: Switch, checked: bool): (r: Notifications)
    ensures Flag(r, sw) == checked
    ensures forall other: Switch :: other != sw ==> Flag(r, other) == Flag(n, other)
    ensures r.moodTracking == n.moodTracking
  {
    match sw
    case DailyReminders => n.(dailyReminders := checked)
    case ChallengeUpdates => n.(challengeUpdates := checked)
    case WeeklyReports => n.(weeklyReports := checked)
    case CommunityActivity => n.(communityActivity := checked)
    case EmailNotifications => n.(emailNotifications := checked)
    case PushNotifications => n.(pushNotifications := checked)
  }

  /** A switch event: which switch, and the value it was set to. */
  datatype Toggle = Toggle(sw: Switch, checked: bool)

  /** The flags after a run of switch events. */
  function ApplyAll(n: Notifications, events: seq<Toggle>): Notifications
    decreases |events|
  {
    if events == [] then n
    else ApplyAll(WithFlag(n, events[0].sw, events[0].checked), events[1..])
  }

  /** However the switches are used, mood tracking keeps its value, and a
      switch that is never touched keeps its flag. */
  lemma {:induction false} ApplyAllKeeps(n: Notifications, events: seq<Toggle>, sw: Switch)
    ensures ApplyAll(n, events).moodTracking == n.moodTracking
    ensures (forall i :: 0 <= i < |events| ==> events[i].sw != sw) ==>
      Flag(ApplyAll(n, events), sw) == Flag(n, sw)
    decreases |events|
  {
    if events != [] {
      ApplyAllKeeps(WithFlag(n, events[0].sw, events[0].checked), events[1..], sw);
    }
  }

  /** After a run of events, a switch shows the value of its last event. */
  lemma {:induction false} ApplyAllLast(n: Notifications, events: seq<Toggle>, k: nat)
    requires k < |events|
    requires forall i :: k < i < |events| ==> events[i].sw != events[k].sw
    ensures Flag(ApplyAll(n, events), events[k].sw) == events[k].checked
    decreases |events|
  {
    var n' := WithFlag(n, events[0].sw, events[0].checked);
    if k == 0 {
      ApplyAllKeeps(n', events[1..], events[0].sw);
    } else {
      ApplyAllLast(n', events[1..], k - 1);
    }
  }

  // ---- Profile fields -------------------------------------------------

  /** The name input: only the name changes. */
  function WithName(u: User, name: string): (r: User)
    ensures r.name == name && r.(name := u.name) == u
  {
    u.(name := name)
  }

  /** The email input: only the email changes. */
  function WithEmail(u: User, email: string): (r: User)
    ensures r.email == email && r.(email := u.email) == u
  {
    u.(email := email)
  }

  /** Editing one field never disturbs the other. */
  lemma NameEmailIndependent(u: User, name: string, email: string)
    ensures WithEmail(WithName(u, name), email) == WithName(WithEmail(u, email), name)
    ensures WithName(WithEmail(u, email), name).email == email
  {
  }

  // ---- Theme cards ----------------------------------------------------

  /** The three cards of the appearance tab. */
  datatype ThemeCard = LightCard | DarkCard | SystemCard

  /** The id each card writes into `preferences.theme`, as the page has it. */
  function CardThemeId(card: ThemeCard): string {
    match card
    case LightCard => "light"
    case DarkCard => "dark"
    case SystemCard => "system"
  }

  /** The system card's id is not a theme the user schema accepts, and a
      user whose stored theme is "auto" sees no card as selected. */
  lemma SystemCardOutsideSchema()
    ensures ParseTheme(CardThemeId(SystemCard)) == None
    ensures forall card: ThemeCard :: CardThemeId(card) != ThemeName(Auto)
  {
  }

  /** The theme each card stands for, with the system card meaning the
      schema's "auto". */
  function CardTheme(card: ThemeCard): (t: Theme)
    ensures card != SystemCard ==> ParseTheme(CardThemeId(card)) == Some(t)
    ensures card == SystemCard <==> t == Auto
  {
    match card
    case LightCard => Light
    case DarkCard => Dark
    case SystemCard => Auto
  }

  /** With that mapping every stored theme is shown by exactly one card, and
      each card reads back the theme it stores. */
  lemma CardThemeOneToOne(t: Theme)
    ensures exists card: ThemeCard :: CardTheme(card) == t
    ensures forall a: ThemeCard, b: ThemeCard :: CardTheme(a) == CardTheme(b) ==> a == b
  {
    var card := match t
      case Light => LightCard
      case Dark => DarkCard
      case Auto => SystemCard;
    assert CardTheme(card) == t;
  }

  /** The user after a theme card is clicked: only `preferences.theme`
      changes. */
  function WithTheme(u: User, card: ThemeCard): (r: User)
    ensures r.preferences.theme == CardTheme(card)
    ensures r.preferences.(theme := u.preferences.theme) == u.preferences
    ensures r.(preferences := u.preferences) == u
  {
    u.(preferences := u.preferences.(theme := CardTheme(card)))
  }

  // ---- Avatar initials ------------------------------------------------

  /** `s.split(' ')`: the pieces between spaces, an empty piece wherever two
      spaces meet or a space starts or ends the string. */
  function SplitSpaces(s: string): (r: seq<string>)
    ensures |r| >= 1
    decreases |s|
  {
    if s == [] then [""]
    else
      var rest := SplitSpaces(s[1..]);
      if s[0] == ' ' then [""] + rest else [[s[0]] + rest[0]] + rest[1..]
  }

  /** `pieces.join(' ')`. */
  function JoinSpaces(pieces: seq<string>): string
    requires |pieces| >= 1
    decreases |pieces|
  {
    if |pieces| == 1 then pieces[0] else pieces[0] + " " + JoinSpaces(pieces[1..])
  }

  /** Joining the pieces gives back the string. */
  lemma {:induction false} SplitJoin(s: string)
    ensures JoinSpaces(SplitSpaces(s)) == s
    decreases |s|
  {
    if s != [] {
      var rest, r := SplitSpaces(s[1..]), SplitSpaces(s);
      SplitJoin(s[1..]);
      if s[0] == ' ' {
        assert r[0] == "" && r[1..] == rest;
        assert JoinSpaces(r) == "" + " " + JoinSpaces(rest);
      } else if |rest| == 1 {
        assert JoinSpaces(r) == [s[0]] + JoinSpaces(rest);
      } else {
        assert r[1..] == rest[1..];
        assert JoinSpaces(r) == ([s[0]] + rest[0]) + " " + JoinSpaces(rest[1..]);
      }
      assert s == [s[0]] + s[1..];
    }
  }

  /** No piece holds a space. */
  lemma {:induction false} SplitNoSpace(s: string)
    ensures forall i :: 0 <= i < |SplitSpaces(s)| ==> ' ' !in SplitSpaces(s)[i]
    decreases |s|
  {
    if s != [] {
      var rest, r := SplitSpaces(s[1..]), SplitSpaces(s);
      SplitNoSpace(s[1..]);
      if s[0] != ' ' {
        assert r[1..] == rest[1..];
        assert ' ' !in [s[0]] + rest[0];
      }
    }
  }

  /** Splitting at a space splits each side on its own. */
  lemma {:induction false} SplitAtSpace(a: string, b: string)
    ensures SplitSpaces(a + " " + b) == SplitSpaces(a) + SplitSpaces(b)
    decreases |a|
  {
    if a == [] {
      assert a + " " + b == [' '] + b;
      assert ([' '] + b)[1..] == b;
    } else {
      var s := a + " " + b;
      assert s[0] == a[0] && s[1..] == a[1..] + " " + b;
      SplitAtSpace(a[1..], b);
    }
  }

  /** `n[0]` of a piece, which `join` writes as nothing for an empty piece. */
  function FirstChar(piece: string): (r: string)
    ensures |r| <= 1 && (r == "" <==> piece == "")
  {
    if piece == "" then "" else [piece[0]]
  }

  function Heads(pieces: seq<string>): string
    decreases |pieces|
  {
    if pieces == [] then "" else FirstChar(pieces[0]) + Heads(pieces[1..])
  }

  lemma {:induction false} HeadsConcat(a: seq<string>, b: seq<string>)
    ensures Heads(a + b) == Heads(a) + Heads(b)
    decreases |a|
  {
    if a == [] {
      assert a + b == b;
    } else {
      assert (a + b)[0] == a[0] && (a + b)[1..] == a[1..] + b;
      HeadsConcat(a[1..], b);
    }
  }

  /** The avatar fallback: `name.split(' ').map(n => n[0]).join('')`. */
  function Initials(name: string): string {
    Heads(SplitSpaces(name))
  }

  /** A single word contributes its first character, and a name with a space
      contributes the initials of each side in turn. */
  lemma InitialsLaws(a: string, b: string)
    ensures ' ' !in a ==> Initials(a) == FirstChar(a)
    ensures Initials(a + " " + b) == Initials(a) + Initials(b)
  {
    if ' ' !in a {
      NoSpaceOnePiece(a);
    }
    SplitAtSpace(a, b);
    HeadsConcat(SplitSpaces(a), SplitSpaces(b));
  }

  lemma {:induction false} NoSpaceOnePiece(w: string)
    requires ' ' !in w
    ensures SplitSpaces(w) == [w]
    decreases |w|
  {
    if w != [] {
      assert ' ' !in w[1..];
      NoSpaceOnePiece(w[1..]);
      assert [w[0]] + w[1..] == w;
    }
  }

  // ---- The page state -------------------------------------------------

  class SettingsPage {
    var user: User
    var notifications: Notifications

    constructor (initialUser: User)
      ensures user == initialUser && notifications == InitialNotifications
    {
      user, notifications := initialUser, InitialNotifications;
    }

    method SetSwitch(sw: Switch, checked: bool)
      modifies this`notifications
      ensures notifications == WithFlag(old(notifications), sw, checked)
    {
      notifications := WithFlag(notifications, sw, checked);
    }

    method SetName(name: string)
      modifies this`user
      ensures user == WithName(old(user), name)
    {
      user := WithName(user, name);
    }

    method SetEmail(email: string)
      modifies this`user
      ensures user == WithEmail(old(user), email)
    {
      user := WithEmail(user, email);
    }

    /** A theme card, storing the schema theme the card stands for. */
    method SelectTheme(card: ThemeCard)
      modifies this`user
      ensures user == WithTheme(old(user), card)
    {
      user := WithTheme(user, card);
    }
  }
}
