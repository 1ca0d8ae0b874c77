/**
 * The metric card every panel uses: its colour scheme chosen by name, the
 * change badge, and the extra classes a clickable card gets.
 */
module MetricCard {
  import opened Wrappers

  /** The named schemes; any other name gets the slate default. */
  datatype Color = Danger | Success | Warning | Accent | Purple | Slate

  function ColorOf(name: string): (c: Color)
    ensures name == "danger" <==> c == Danger
    ensures name == "success" <==> c == Success
    ensures name == "warning" <==> c == Warning
    ensures name == "accent" <==> c == Accent
    ensures name == "purple" <==> c == Purple
  {
    if name == "danger" then Danger
    else if name == "success" then Success
    else if name == "warning" then Warning
    else if name == "accent" then Accent
    else if name == "purple" then Purple
    else Slate
  }

  /** The Tailwind hue of a scheme. */
  function Hue(c: Color): string {
    match c
    case Danger => "red"
    case Success => "emerald"
    case Warning => "amber"
    case Accent => "sky"
    case Purple => "purple"
    case Slate => "slate"
  }

  datatype ColorConfig = ColorConfig(bg: string, border: string, text: string, iconColor: string, bgIcon: string)

  /**
   * `getColorConfig`: every class is the scheme's hue at a fixed shade; the
   * default scheme starts its gradient at shade 700 and dims its icon to 300.
   */
  function ColorConfigFor(c: Color): (r: ColorConfig)
    ensures r.border == "border-l-" + Hue(c) + "-500"
    ensures r.text == "text-" + Hue(c) + "-400"
    ensures r.bgIcon == "bg-" + Hue(c) + "-500/20 border-" + Hue(c) + "-500/30"
    ensures c != Slate ==> r.iconColor == r.text && r.bg == "bg-gradient-to-br from-" + Hue(c) + "-500/10 to-" + Hue(c) + "-900/5"
    ensures c == Slate ==> r.iconColor == "text-slate-300" && r.bg == "bg-gradient-to-br from-slate-700/10 to-slate-900/5"
  {
    var h := Hue(c);
    ColorConfig(
      if c == Slate then "bg-gradient-to-br from-slate-700/10 to-slate-900/5"
      else "bg-gradient-to-br from-" + h + "-500/10 to-" + h + "-900/5",
      "border-l-" + h + "-500",
      "text-" + h + "-400",
      if c == Slate then "text-slate-300" else "text-" + h + "-400",
      "bg-" + h + "-500/20 border-" + h + "-500/30")
  }

  /** The card's scheme for the `color` prop (default `'default'`). */
  function CardColors(color: Option<string>): (r: ColorConfig)
    ensures color.None? ==> r == ColorConfigFor(Slate)
    ensures color.Some? ==> r == ColorConfigFor(ColorOf(color.value))
  {
    ColorConfigFor(ColorOf(color.GetOr("default")))
  }

  /** The two letters after "border-l-" tell the six hues apart, so no two schemes share a border. */
  lemma BordersDistinct(c: Color, d: Color)
    requires c != d
    ensures ColorConfigFor(c).border != ColorConfigFor(d).border
  {
    var bc := ColorConfigFor(c).border;
    var bd := ColorConfigFor(d).border;
    assert bc[9] == Hue(c)[0] && bc[10] == Hue(c)[1];
    assert bd[9] == Hue(d)[0] && bd[10] == Hue(d)[1];
  }

  /** The change badge: none without a change, up or down by its magnitude, flat at zero. */
  datatype Badge = NoBadge | Up(value: real) | Down(value: real) | Flat

  /** `getChangeDisplay`. */
  function ChangeDisplay(change: Option<real>): (r: Badge)
    ensures change.None? <==> r == NoBadge
    ensures r.Up? || r.Down? ==> r.value > 0.0
    ensures change.Some? && change.value > 0.0 <==> r.Up?
    ensures change.Some? && change.value < 0.0 <==> r.Down?
    ensures change == Some(0.0) <==> r == Flat
  {
    match change
    case None => NoBadge
    case Some(x) => if x > 0.0 then Up(x) else if x < 0.0 then Down(-x) else Flat
  }

  /** The change a badge stands for: the arrow is the sign and the figure the magnitude. */
  function SignedValue(b: Badge): Option<real> {
    match b
    case NoBadge => None
    case Up(v) => Some(v)
    case Down(v) => Some(-v)
    case Flat => Some(0.0)
  }

  /** The badge loses nothing: its arrow and magnitude give back the change. */
  lemma ChangeDisplayRoundTrip(change: Option<real>)
    ensures SignedValue(ChangeDisplay(change)) == change
  {
  }

  /** The hover classes a card gets exactly when it has a click handler. */
  function ClickableClasses(hasOnClick: bool): (r: string)
    ensures hasOnClick <==> |r| > 0
    ensures hasOnClick ==> r == "cursor-pointer hover:bg-white/5 hover:translate-y-[-1px]"
  {
    if hasOnClick then "cursor-pointer hover:bg-white/5 hover:translate-y-[-1px]" else ""
  }
}
