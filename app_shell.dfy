/**
 * The application shell: log-in state, the current view and which panel it
 * renders, the responsive sidebar, the command palette shortcut, the
 * notification tray and the display-mode filter. Window width, key events,
 * the notification timer's draws and translated texts are parameters.
 */
module AppShell {
  import opened JsString
  import opened JsMath
  import opened Feeds

  /** The view states the shell renders, plus any other member of the enumeration. */
  datatype ViewState =
    | Overview | Presidential | PrimeMinister | Operations | Intelligence | Logistics | SpaceCommand
    | Reports | Hr | Health | Settings | Communications | InfoOps | ForeignRelations | Veterans
    | AirForce | Navy | GroundForces | Wargaming | Ministry | ChiefOfStaff | Council | Integration
    | Peacekeeping | SpecialOps | AiNexus | PsychEval | Legal | Engineering | InspectorGeneral
    | Training | Finance
    | Unlisted(name: string)

  datatype Mode = Standard | Green | Red

  const MobileBreakpoint: int := 768
  const NotificationLimit: nat := 5

  /** The props a panel is given: the dashboard's navigation, or the common back/feedback props plus extras. */
  datatype Props = DashboardProps | CommonProps(defconControl: bool, modeControl: bool)

  datatype Rendering = Rendering(panel: ViewState, props: Props)

  /**
   * `renderView`: every listed view renders its own panel with the common
   * props (the two leadership views also control DEFCON, settings the mode);
   * the overview and anything unlisted render the dashboard.
   */
  function RenderView(v: ViewState): (r: Rendering)
    ensures v.Unlisted? || v == Overview <==> r == Rendering(Overview, DashboardProps)
    ensures !v.Unlisted? && v != Overview ==> r.panel == v && r.props.CommonProps?
    ensures r.props.CommonProps? ==> (r.props.defconControl <==> v == Presidential || v == PrimeMinister)
    ensures r.props.CommonProps? ==> (r.props.modeControl <==> v == Settings)
  {
    match v
    case Overview => Rendering(Overview, DashboardProps)
    case Unlisted(_) => Rendering(Overview, DashboardProps)
    case Presidential => Rendering(v, CommonProps(true, false))
    case PrimeMinister => Rendering(v, CommonProps(true, false))
    case Settings => Rendering(v, CommonProps(false, true))
    case _ => Rendering(v, CommonProps(false, false))
  }

  /** The header's back button shows on every view but the overview. */
  predicate BackButtonShown(v: ViewState) {
    v != Overview
  }

  /** `getModeClasses`: a colour filter for the night-vision and tactical-red modes, none for standard. */
  function ModeClasses(m: Mode): (r: string)
    ensures |r| == 0 <==> m == Standard
    ensures m == Green ==> r == "grayscale contrast-125 sepia hue-rotate-[50deg] saturate-50"
    ensures m == Red ==> r == "grayscale contrast-125 sepia hue-rotate-[320deg] saturate-200"
  {
    match m
    case Green => "grayscale contrast-125 sepia hue-rotate-[50deg] saturate-50"
    case Red => "grayscale contrast-125 sepia hue-rotate-[320deg] saturate-200"
    case Standard => ""
  }

  /** The two filters differ (the hue rotation starts 5 against 3). */
  lemma ModeClassesDistinct()
    ensures ModeClasses(Green) != ModeClasses(Red)
  {
    assert ModeClasses(Green)[41] == '5' && ModeClasses(Red)[41] == '3';
  }

  /** The palette shortcut: Cmd or Ctrl with a lower-case 'k'. */
  predicate IsPaletteShortcut(meta: bool, ctrl: bool, key: string) {
    (meta || ctrl) && key == "k"
  }

  function PaletteAfter(open: bool, meta: bool, ctrl: bool, key: string): (r: bool)
    ensures IsPaletteShortcut(meta, ctrl, key) ==> r == !open
    ensures !IsPaletteShortcut(meta, ctrl, key) ==> r == open
  {
    if IsPaletteShortcut(meta, ctrl, key) then !open else open
  }

  /** Pressing the shortcut twice restores the palette; 'K' or a plain 'k' do nothing. */
  lemma PaletteShortcutTwice(open: bool, meta: bool, ctrl: bool)
    requires meta || ctrl
    ensures PaletteAfter(PaletteAfter(open, meta, ctrl, "k"), meta, ctrl, "k") == open
    ensures PaletteAfter(open, meta, ctrl, "K") == open
    ensures PaletteAfter(open, false, false, "k") == open
  {
  }

  /** The five alert texts: three translated ones, then two fixed ones. */
  function Alerts(translated: seq<string>): (r: seq<string>)
    requires |translated| == 3
    ensures |r| == 5 && r[..3] == translated
    ensures r[3] == "Satellite realignment complete." && r[4] == "Cyber threat neutralized in Sector 9."
  {
    translated + ["Satellite realignment complete.", "Cyber threat neutralized in Sector 9."]
  }

  /** `alerts[Math.floor(Math.random() * alerts.length)]`. */
  function PickAlert(alerts: seq<string>, draw: real): (r: string)
    requires |alerts| > 0 && 0.0 <= draw < 1.0
    ensures 0 <= Floor(draw * |alerts| as real) < |alerts|
    ensures r == alerts[Floor(draw * |alerts| as real)] && r in alerts
  {
    FloorIndex(draw, |alerts|);
    alerts[Floor(draw * |alerts| as real)]
  }

  /** Fields joined with a string separator, as `Array.prototype.join` does. */
  function JoinWith(fields: seq<string>, sep: string): (r: string)
    ensures |fields| == 1 ==> r == fields[0]
    ensures |fields| > 0 ==> StartsWith(r, fields[0])
  {
    if |fields| == 0 then ""
    else if |fields| == 1 then fields[0]
    else
      var r := fields[0] + sep + JoinWith(fields[1..], sep);
      assert r[..|fields[0]|] == fields[0];
      r
  }

  const TickerIdle: string := "SYSTEM NORMAL ••• SECURE CONNECTION ESTABLISHED ••• ENDF NEXUS ONLINE"

  /** The news ticker: the alerts joined by bullets once there are any (and the ticker text is translated), else the idle line. */
  function TickerText(tickerItems: string, notifications: seq<string>): (r: string)
    ensures tickerItems != "" && |notifications| > 0 ==> r == JoinWith(notifications, " ••• ") && StartsWith(r, notifications[0])
    ensures tickerItems == "" || |notifications| == 0 ==> r == TickerIdle
  {
    if tickerItems != "" && |notifications| > 0 then JoinWith(notifications, " ••• ") else TickerIdle
  }

  /** The language switcher's short label: the first word of the language's name, "EN" for an unknown code. */
  datatype Language = Language(code: string, name: string)

  const Languages: seq<Language> := [
    Language("en", "English"), Language("am", "Amharic (አማርኛ)"), Language("om", "Oromiffa"),
    Language("ti", "Tigrinya"), Language("so", "Somali")
  ]

  function FindLanguage(langs: seq<Language>, code: string): (r: seq<Language>)
    ensures |r| <= 1 && (|r| == 1 ==> r[0] in langs && r[0].code == code)
    ensures |r| == 0 <==> forall k :: 0 <= k < |langs| ==> langs[k].code != code
  {
    if |langs| == 0 then []
    else if langs[0].code == code then [langs[0]]
    else FindLanguage(langs[1..], code)
  }

  function LanguageLabel(code: string): (r: string)
    ensures |FindLanguage(Languages, code)| == 0 ==> r == "EN"
    ensures |FindLanguage(Languages, code)| == 1 && Split(FindLanguage(Languages, code)[0].name, ' ')[0] != "" ==>
      r == Split(FindLanguage(Languages, code)[0].name, ' ')[0]
  {
    var found := FindLanguage(Languages, code);
    if |found| == 1 && Split(found[0].name, ' ')[0] != "" then Split(found[0].name, ' ')[0] else "EN"
  }

  /** Amharic shows its first word only; an unknown code falls back to "EN". */
  lemma LanguageLabels()
    ensures LanguageLabel("am") == "Amharic"
    ensures LanguageLabel("xx") == "EN"
  {
    AmharicFound();
    AmharicFirstWord();
    var found := FindLanguage(Languages, "am");
    assert found[0].name == "Amharic (አማርኛ)";
    UnknownNotFound();
  }

  lemma UnknownNotFound()
    ensures FindLanguage(Languages, "xx") == []
  {
    assert forall k :: 0 <= k < |Languages| ==> Languages[k].code[0] != 'x';
  }

  lemma AmharicFound()
    ensures FindLanguage(Languages, "am") == [Language("am", "Amharic (አማርኛ)")]
  {
    assert Languages[0].code != "am";
    assert Languages[1..][0] == Language("am", "Amharic (አማርኛ)");
  }

  lemma AmharicFirstWord()
    ensures Split("Amharic (አማርኛ)", ' ')[0] == "Amharic"
  {
    FirstWord("Amharic", "(አማርኛ)");
    assert "Amharic" + " " + "(አማርኛ)" == "Amharic (አማርኛ)";
  }

  lemma FirstWord(a: string, b: string)
    requires ' ' !in a
    ensures Split(a + " " + b, ' ')[0] == a
  {
    SplitAtFirst(a, ' ', b);
    assert a + " " + b == a + [' '] + b;
  }

  // ---------------------------------------------------------------- the shell

  class Shell {
    var isAuthenticated: bool
    var currentView: ViewState
    var defcon: int
    var mode: Mode
    var isSidebarOpen: bool
    var showPalette: bool
    var showDataTerminal: bool
    var showInbox: bool
    var showFeedback: bool
    var notifications: seq<string>
    var langMenuOpen: bool
    var language: string

    /** The tray never holds more than five alerts. */
    predicate Valid()
      reads this`notifications
    {
      |notifications| <= NotificationLimit
    }

    constructor ()
      ensures Valid()
      ensures !isAuthenticated && currentView == Overview && defcon == 3 && mode == Standard
      ensures !isSidebarOpen && !showPalette && !showDataTerminal && !showInbox && !showFeedback
      ensures notifications == [] && !langMenuOpen && language == "en"
    {
      isAuthenticated := false;
      currentView := Overview;
      defcon := 3;
      mode := Standard;
      isSidebarOpen := false;
      showPalette := false;
      showDataTerminal := false;
      showInbox := false;
      showFeedback := false;
      notifications := [];
      langMenuOpen := false;
      language := "en";
    }

    method Login()
      modifies this`isAuthenticated
      ensures isAuthenticated
    {
      isAuthenticated := true;
    }

    /** `handleResize`: the sidebar is open exactly on wide windows. */
    method Resize(width: int)
      modifies this`isSidebarOpen
      ensures isSidebarOpen <==> width >= MobileBreakpoint
    {
      isSidebarOpen := width >= MobileBreakpoint;
    }

    method KeyDown(meta: bool, ctrl: bool, key: string)
      modifies this`showPalette
      ensures showPalette == PaletteAfter(old(showPalette), meta, ctrl, key)
    {
      if IsPaletteShortcut(meta, ctrl, key) {
        showPalette := !showPalette;
      }
    }

    /**
     * The fifteen-second notification timer, which runs only while logged in:
     * with chance 0.3 a picked alert goes first and the tray keeps five.
     */
    method NotificationTick(translated: seq<string>, fire: real, pick: real)
      requires Valid() && |translated| == 3 && 0.0 <= pick < 1.0
      modifies this`notifications
      ensures Valid()
      ensures isAuthenticated && fire > 0.7 ==>
        notifications == Newest(PickAlert(Alerts(translated), pick), old(notifications), NotificationLimit)
      ensures !isAuthenticated || fire <= 0.7 ==> notifications == old(notifications)
    {
      if isAuthenticated && fire > 0.7 {
        var alert := PickAlert(Alerts(translated), pick);
        notifications := Newest(alert, notifications, NotificationLimit);
      }
    }

    /** `handleLogout`: back to the log-in screen, with the overview selected for next time. */
    method Logout()
      modifies this`isAuthenticated, this`currentView
      ensures !isAuthenticated && currentView == Overview
    {
      isAuthenticated := false;
      currentView := Overview;
    }

    method GoBackToDashboard()
      modifies this`currentView
      ensures currentView == Overview && !BackButtonShown(currentView)
    {
      currentView := Overview;
    }

    /** `handleNavigate`: the view changes, and on narrow windows the sidebar closes. */
    method Navigate(v: ViewState, width: int)
      modifies this`currentView, this`isSidebarOpen
      ensures currentView == v
      ensures width < MobileBreakpoint ==> !isSidebarOpen
      ensures width >= MobileBreakpoint ==> isSidebarOpen == old(isSidebarOpen)
    {
      currentView := v;
      if width < MobileBreakpoint {
        isSidebarOpen := false;
      }
    }

    /** The palette's actions: log out, open the inbox, open the feedback form; anything else does nothing. */
    method PaletteAction(action: string)
      modifies this`isAuthenticated, this`currentView, this`showInbox, this`showFeedback
      ensures action == "logout" ==> !isAuthenticated && currentView == Overview
      ensures action != "logout" ==> isAuthenticated == old(isAuthenticated) && currentView == old(currentView)
      ensures showInbox == (old(showInbox) || action == "inbox")
      ensures showFeedback == (old(showFeedback) || action == "feedback")
    {
      if action == "logout" {
        Logout();
      }
      if action == "inbox" {
        showInbox := true;
      }
      if action == "feedback" {
        showFeedback := true;
      }
    }

    method SelectLanguage(code: string)
      modifies this`language, this`langMenuOpen
      ensures language == code && !langMenuOpen
    {
      language := code;
      langMenuOpen := false;
    }

    method SetMode(m: Mode)
      modifies this`mode
      ensures mode == m
    {
      mode := m;
    }

    /** The 'open-data-terminal' window event opens the data terminal. */
    method OpenDataTerminal()
      modifies this`showDataTerminal
      ensures showDataTerminal
    {
      showDataTerminal := true;
    }

    method ToggleDataTerminal()
      modifies this`showDataTerminal
      ensures showDataTerminal == !old(showDataTerminal)
    {
      showDataTerminal := !showDataTerminal;
    }
  }
}
