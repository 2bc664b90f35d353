/**
 * The property values of one notification message (the `INotificationMessage` record
 * and the optional `INotificationMessageAnimation` capability) and what assigning each
 * property does, including the change callbacks of the message control: a text
 * property drives its visibility flag, and the accent brush seeds the badge and button
 * accents while those are unset.
 *
 * A change callback of a dependency property runs only when the assigned value differs
 * from the stored one; every `With...` function below follows that rule.
 */
module MessageProperties {
  import opened Wrappers

  /** `System.Windows.Visibility`. */
  datatype Visibility = Visible | Hidden | Collapsed

  /**
   * A brush object: `id` stands for its reference identity, which is what a dependency
   * property compares to decide whether it changed, and `colour` for what it paints.
   * Two brushes of one colour are different values unless they are the same object.
   */
  datatype Brush = Brush(id: nat, colour: string)

  /** Any content object (a button label, an overlay element); opaque to the library. */
  datatype Content = Text(text: string) | Element(id: nat)

  /** The animation capability: whether the message animates and for how many seconds. */
  datatype Animation = Animation(animates: bool, duration: real)

  /** The text colour the message control gives itself in its constructor. */
  const DefaultForeground := Brush(0, "#DDDDDD")

  /** The default of the control's `AnimationDuration` property, in seconds. */
  const DefaultAnimationDuration: real := 0.25

  /** The stored properties of one message; `None` is a null value. */
  datatype Properties = Properties(
    background: Option<Brush>,
    accentBrush: Option<Brush>,
    badgeAccentBrush: Option<Brush>,
    badgeText: Option<string>,
    badgeVisibility: Visibility,
    buttonAccentBrush: Option<Brush>,
    header: Option<string>,
    headerVisibility: Visibility,
    message: Option<string>,
    messageVisibility: Visibility,
    overlayContent: Option<Content>,
    foreground: Option<Brush>,
    animation: Option<Animation>)

  /** The visibility a text change callback assigns: only a null text is collapsed. */
  function VisibilityOf(text: Option<string>): (v: Visibility)
    ensures v == Visible <==> text.Some?
    ensures v != Visible ==> v == Collapsed
  {
    if text.None? then Collapsed else Visible
  }

  /** Each visibility flag agrees with its text property. */
  ghost predicate VisibilitiesDerived(p: Properties) {
    && p.headerVisibility == VisibilityOf(p.header)
    && p.messageVisibility == VisibilityOf(p.message)
    && p.badgeVisibility == VisibilityOf(p.badgeText)
  }

  /** Both the badge accent and the button accent hold a brush. */
  ghost predicate AccentsSettled(p: Properties) {
    p.badgeAccentBrush.Some? && p.buttonAccentBrush.Some?
  }

  /** A freshly constructed message control. */
  function Default(): (p: Properties)
    ensures p.headerVisibility == Collapsed && p.messageVisibility == Collapsed && p.badgeVisibility == Collapsed
    ensures p.header.None? && p.message.None? && p.badgeText.None?
    ensures VisibilitiesDerived(p)
    ensures p.accentBrush.None? && p.badgeAccentBrush.None? && p.buttonAccentBrush.None?
    ensures p.foreground == Some(DefaultForeground)
    ensures p.animation == Some(Animation(false, DefaultAnimationDuration))
  {
    Properties(
      background := None,
      accentBrush := None,
      badgeAccentBrush := None,
      badgeText := None,
      badgeVisibility := Collapsed,
      buttonAccentBrush := None,
      header := None,
      headerVisibility := Collapsed,
      message := None,
      messageVisibility := Collapsed,
      overlayContent := None,
      foreground := Some(DefaultForeground),
      animation := Some(Animation(false, DefaultAnimationDuration)))
  }

  /** Assigning `Header`; on a change its callback re-derives `HeaderVisibility`. */
  function WithHeader(p: Properties, h: Option<string>): (r: Properties)
    ensures r.header == h
    ensures h != p.header ==> r.headerVisibility == VisibilityOf(h)
    ensures h == p.header ==> r == p
    ensures r.(header := p.header, headerVisibility := p.headerVisibility) == p
    ensures VisibilitiesDerived(p) ==> VisibilitiesDerived(r) && (r.headerVisibility == Visible <==> h.Some?)
  {
    if h == p.header then p else p.(header := h, headerVisibility := VisibilityOf(h))
  }

  /** Assigning `Message`; on a change its callback re-derives `MessageVisibility`. */
  function WithMessage(p: Properties, m: Option<string>): (r: Properties)
    ensures r.message == m
    ensures m != p.message ==> r.messageVisibility == VisibilityOf(m)
    ensures m == p.message ==> r == p
    ensures r.(message := p.message, messageVisibility := p.messageVisibility) == p
    ensures VisibilitiesDerived(p) ==> VisibilitiesDerived(r) && (r.messageVisibility == Visible <==> m.Some?)
  {
    if m == p.message then p else p.(message := m, messageVisibility := VisibilityOf(m))
  }

  /** Assigning `BadgeText`; on a change its callback re-derives `BadgeVisibility`. */
  function WithBadgeText(p: Properties, b: Option<string>): (r: Properties)
    ensures r.badgeText == b
    ensures b != p.badgeText ==> r.badgeVisibility == VisibilityOf(b)
    ensures b == p.badgeText ==> r == p
    ensures r.(badgeText := p.badgeText, badgeVisibility := p.badgeVisibility) == p
    ensures VisibilitiesDerived(p) ==> VisibilitiesDerived(r) && (r.badgeVisibility == Visible <==> b.Some?)
  {
    if b == p.badgeText then p else p.(badgeText := b, badgeVisibility := VisibilityOf(b))
  }

  /**
   * Assigning `AccentBrush`; on a change its callback copies the new brush into
   * `BadgeAccentBrush` and into `ButtonAccentBrush`, each only while it is still null.
   */
  function WithAccent(p: Properties, a: Option<Brush>): (r: Properties)
    ensures r.accentBrush == a
    ensures p.badgeAccentBrush.Some? ==> r.badgeAccentBrush == p.badgeAccentBrush
    ensures p.buttonAccentBrush.Some? ==> r.buttonAccentBrush == p.buttonAccentBrush
    ensures p.badgeAccentBrush.None? && a != p.accentBrush ==> r.badgeAccentBrush == a
    ensures p.buttonAccentBrush.None? && a != p.accentBrush ==> r.buttonAccentBrush == a
    ensures a == p.accentBrush ==> r == p
    ensures r.(accentBrush := p.accentBrush, badgeAccentBrush := p.badgeAccentBrush,
               buttonAccentBrush := p.buttonAccentBrush) == p
  {
    if a == p.accentBrush then p
    else
      p.(accentBrush := a,
         badgeAccentBrush := if p.badgeAccentBrush.None? then a else p.badgeAccentBrush,
         buttonAccentBrush := if p.buttonAccentBrush.None? then a else p.buttonAccentBrush)
  }

  /** Assigning `BadgeAccentBrush` directly (no change callback). */
  function WithBadgeAccent(p: Properties, b: Option<Brush>): (r: Properties)
    ensures r.badgeAccentBrush == b && r.(badgeAccentBrush := p.badgeAccentBrush) == p
  {
    p.(badgeAccentBrush := b)
  }

  /** Assigning `ButtonAccentBrush` directly (no change callback). */
  function WithButtonAccent(p: Properties, b: Option<Brush>): (r: Properties)
    ensures r.buttonAccentBrush == b && r.(buttonAccentBrush := p.buttonAccentBrush) == p
  {
    p.(buttonAccentBrush := b)
  }

  /** Assigning `Background` (no change callback). */
  function WithBackground(p: Properties, b: Option<Brush>): (r: Properties)
    ensures r.background == b && r.(background := p.background) == p
  {
    p.(background := b)
  }

  /** Assigning `Foreground` (no change callback). */
  function WithForeground(p: Properties, b: Option<Brush>): (r: Properties)
    ensures r.foreground == b && r.(foreground := p.foreground) == p
  {
    p.(foreground := b)
  }

  /** Assigning `OverlayContent` (no change callback). */
  function WithOverlay(p: Properties, c: Option<Content>): (r: Properties)
    ensures r.overlayContent == c && r.(overlayContent := p.overlayContent) == p
  {
    p.(overlayContent := c)
  }

  /** Assigning `Animates`: only a message with the animation capability has the property. */
  function WithAnimates(p: Properties, animates: bool): (r: Properties)
    ensures p.animation.None? ==> r == p
    ensures p.animation.Some? ==> r.animation == Some(p.animation.value.(animates := animates))
    ensures r.(animation := p.animation) == p
  {
    match p.animation
    case None => p
    case Some(a) => p.(animation := Some(a.(animates := animates)))
  }

  /** Assigning `AnimationDuration`: only a message with the animation capability has it. */
  function WithAnimationDuration(p: Properties, duration: real): (r: Properties)
    ensures p.animation.None? ==> r == p
    ensures p.animation.Some? ==> r.animation == Some(p.animation.value.(duration := duration))
    ensures r.(animation := p.animation) == p
  {
    match p.animation
    case None => p
    case Some(a) => p.(animation := Some(a.(duration := duration)))
  }

  /**
   * The accent callback compares brush objects, not colours: after the badge accent is
   * cleared, assigning a second brush of the current accent's colour still refills it.
   */
  lemma NewBrushOfSameColour(p: Properties, b1: Brush, b2: Brush)
    requires p.accentBrush == Some(b1) && p.badgeAccentBrush.None?
    requires b2.colour == b1.colour && b2.id != b1.id
    ensures WithAccent(p, Some(b2)).badgeAccentBrush == Some(b2)
    ensures WithAccent(p, Some(b2)).accentBrush == Some(b2)
  {
  }

  /** One call of a builder setter (`SetHeader`, `SetAccent`, ...), as a value. */
  datatype Setting =
    | SetHeader(header: Option<string>)
    | SetMessage(message: Option<string>)
    | SetBadge(badgeText: Option<string>)
    | SetAccent(accent: Option<Brush>)
    | SetBackground(background: Option<Brush>)
    | SetOverlay(overlay: Option<Content>)
    | SetForeground(foreground: Option<Brush>)
    | SetAnimates(animates: bool)
    | SetAnimationDuration(duration: real)

  function Assign(p: Properties, s: Setting): Properties {
    match s
    case SetHeader(h) => WithHeader(p, h)
    case SetMessage(m) => WithMessage(p, m)
    case SetBadge(b) => WithBadgeText(p, b)
    case SetAccent(a) => WithAccent(p, a)
    case SetBackground(b) => WithBackground(p, b)
    case SetOverlay(c) => WithOverlay(p, c)
    case SetForeground(f) => WithForeground(p, f)
    case SetAnimates(v) => WithAnimates(p, v)
    case SetAnimationDuration(d) => WithAnimationDuration(p, d)
  }

  /** A chain of builder setters, applied left to right. */
  function AssignAll(p: Properties, settings: seq<Setting>): Properties
    decreases |settings|
  {
    if settings == [] then p else AssignAll(Assign(p, settings[0]), settings[1..])
  }

  /** The first non-null accent brush a chain of setters assigns. */
  function FirstAccent(settings: seq<Setting>): Option<Brush>
    decreases |settings|
  {
    if settings == [] then None
    else if settings[0].SetAccent? && settings[0].accent.Some? then settings[0].accent
    else FirstAccent(settings[1..])
  }

  /** No chain of builder setters breaks the agreement of the visibility flags with their texts. */
  lemma {:induction false} AssignAllKeepsDerived(p: Properties, settings: seq<Setting>)
    requires VisibilitiesDerived(p)
    ensures VisibilitiesDerived(AssignAll(p, settings))
    decreases |settings|
  {
    if settings != [] {
      AssignAllKeepsDerived(Assign(p, settings[0]), settings[1..]);
    }
  }

  /** Once both accents hold a brush, later accent changes (or any other setter) leave them alone. */
  lemma {:induction false} AssignAllKeepsSettledAccents(p: Properties, settings: seq<Setting>)
    requires AccentsSettled(p)
    ensures AssignAll(p, settings).badgeAccentBrush == p.badgeAccentBrush
    ensures AssignAll(p, settings).buttonAccentBrush == p.buttonAccentBrush
    decreases |settings|
  {
    if settings != [] {
      AssignAllKeepsSettledAccents(Assign(p, settings[0]), settings[1..]);
    }
  }

  /**
   * On a message whose accents were never set (a new one, say), the badge and button
   * accents end up as the first non-null accent the chain assigns, and later accents
   * do not replace it.
   */
  lemma {:induction false} AccentPropagatesOnce(p: Properties, settings: seq<Setting>)
    requires p.accentBrush.None? && p.badgeAccentBrush.None? && p.buttonAccentBrush.None?
    ensures AssignAll(p, settings).badgeAccentBrush == FirstAccent(settings)
    ensures AssignAll(p, settings).buttonAccentBrush == FirstAccent(settings)
    decreases |settings|
  {
    if settings != [] {
      var q := Assign(p, settings[0]);
      if settings[0].SetAccent? && settings[0].accent.Some? {
        AssignAllKeepsSettledAccents(q, settings[1..]);
      } else {
        AccentPropagatesOnce(q, settings[1..]);
      }
    }
  }
}
