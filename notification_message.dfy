// The message control, its buttons and the factory that makes both.
//
// The classes of the library refer to one another in a cycle (a message holds buttons,
// a button's callback holds a builder, a builder holds a manager, a manager notifies a
// container, a container holds a manager), so they share the top-level module; the
// value-level rules they follow live in the modules Lifecycle and MessageProperties.

import opened Wrappers
import opened Lifecycle
import opened MessageProperties

/** Application code given as a button callback; opaque, only the fact that it ran is recorded. */
datatype UserCode = UserCode(id: nat)

/**
 * The value of a button's `Callback` property (an `Action<INotificationMessageButton>`):
 * either what the application passed (`None` is null), or the action that
 * `NotificationMessageBuilderLinq.DismissBefore` makes, which dismisses the builder's
 * message and then runs the application's callback.
 */
datatype ButtonCallback =
  | Callback(code: Option<UserCode>)
  | DismissThen(builder: NotificationMessageBuilder, code: Option<UserCode>)

/** A notification button: the `Content` and `Callback` the builder assigns. */
class NotificationMessageButton {
  var content: Option<Content>
  var callback: ButtonCallback

  constructor ()
    ensures content == None && callback == Callback(None)
  {
    content := None;
    callback := Callback(None);
  }
}

/** The message control (`Controls.NotificationMessage`); each property is a field. */
class NotificationMessage {
  var background: Option<Brush>
  var accentBrush: Option<Brush>
  var badgeAccentBrush: Option<Brush>
  var badgeText: Option<string>
  var badgeVisibility: Visibility
  var buttonAccentBrush: Option<Brush>
  var header: Option<string>
  var headerVisibility: Visibility
  var message: Option<string>
  var messageVisibility: Visibility
  var overlayContent: Option<Content>
  var foreground: Option<Brush>
  /** `Some` for a message that has the animation capability (`Animates`, `AnimationDuration`). */
  var animation: Option<Animation>
  var buttons: seq<NotificationMessageButton>

  /** All properties but `Buttons`, as one value. */
  ghost function State(): Properties
    reads this
  {
    Properties(background, accentBrush, badgeAccentBrush, badgeText, badgeVisibility,
               buttonAccentBrush, header, headerVisibility, message, messageVisibility,
               overlayContent, foreground, animation)
  }

  /** The control's constructor: property defaults, an empty button list and the default text colour. */
  constructor ()
    ensures State() == Default() && buttons == []
  {
    background, accentBrush, badgeAccentBrush, buttonAccentBrush := None, None, None, None;
    badgeText, header, message := None, None, None;
    badgeVisibility, headerVisibility, messageVisibility := Collapsed, Collapsed, Collapsed;
    overlayContent := None;
    animation := Some(Animation(false, DefaultAnimationDuration));
    buttons := [];
    foreground := Some(DefaultForeground);
  }

  /** A message of a variant that lacks the animation capability; otherwise like the control. */
  constructor WithoutAnimation()
    ensures State() == Default().(animation := None) && buttons == []
  {
    background, accentBrush, badgeAccentBrush, buttonAccentBrush := None, None, None, None;
    badgeText, header, message := None, None, None;
    badgeVisibility, headerVisibility, messageVisibility := Collapsed, Collapsed, Collapsed;
    overlayContent := None;
    animation := None;
    buttons := [];
    foreground := Some(DefaultForeground);
  }

  method SetHeader(h: Option<string>)
    modifies this
    ensures State() == WithHeader(old(State()), h) && buttons == old(buttons)
  {
    if h != header {
      header := h;
      headerVisibility := VisibilityOf(h);
    }
  }

  method SetMessage(m: Option<string>)
    modifies this
    ensures State() == WithMessage(old(State()), m) && buttons == old(buttons)
  {
    if m != message {
      message := m;
      messageVisibility := VisibilityOf(m);
    }
  }

  method SetBadgeText(b: Option<string>)
    modifies this
    ensures State() == WithBadgeText(old(State()), b) && buttons == old(buttons)
  {
    if b != badgeText {
      badgeText := b;
      badgeVisibility := VisibilityOf(b);
    }
  }

  method SetAccentBrush(a: Option<Brush>)
    modifies this
    ensures State() == WithAccent(old(State()), a) && buttons == old(buttons)
  {
    if a != accentBrush {
      accentBrush := a;
      if badgeAccentBrush.None? {
        badgeAccentBrush := a;
      }
      if buttonAccentBrush.None? {
        buttonAccentBrush := a;
      }
    }
  }

  method SetBadgeAccentBrush(b: Option<Brush>)
    modifies this
    ensures State() == WithBadgeAccent(old(State()), b) && buttons == old(buttons)
  {
    badgeAccentBrush := b;
  }

  method SetButtonAccentBrush(b: Option<Brush>)
    modifies this
    ensures State() == WithButtonAccent(old(State()), b) && buttons == old(buttons)
  {
    buttonAccentBrush := b;
  }

  method SetBackground(b: Option<Brush>)
    modifies this
    ensures State() == WithBackground(old(State()), b) && buttons == old(buttons)
  {
    background := b;
  }

  method SetForeground(b: Option<Brush>)
    modifies this
    ensures State() == WithForeground(old(State()), b) && buttons == old(buttons)
  {
    foreground := b;
  }

  method SetOverlayContent(c: Option<Content>)
    modifies this
    ensures State() == WithOverlay(old(State()), c) && buttons == old(buttons)
  {
    overlayContent := c;
  }

  method SetAnimates(v: bool)
    modifies this
    ensures State() == WithAnimates(old(State()), v) && buttons == old(buttons)
  {
    if animation.Some? {
      animation := Some(animation.value.(animates := v));
    }
  }

  method SetAnimationDuration(d: real)
    modifies this
    ensures State() == WithAnimationDuration(old(State()), d) && buttons == old(buttons)
  {
    if animation.Some? {
      animation := Some(animation.value.(duration := d));
    }
  }

  /** `Buttons.Add(button)`: appends to the button collection. */
  method AddToButtons(button: NotificationMessageButton)
    modifies this
    ensures buttons == old(buttons) + [button] && State() == old(State())
  {
    buttons := buttons + [button];
  }
}

/** A message reference as an optional value (`None` for null). */
function OptionOf(m: NotificationMessage?): Option<NotificationMessage> {
  if m == null then None else Some(m)
}

/**
 * The message factory: the only way the builder obtains messages and buttons; each
 * call returns a fresh object in its default configuration.
 */
class NotificationMessageFactory {
  constructor () {}

  method GetMessage() returns (m: NotificationMessage)
    ensures fresh(m) && m.State() == Default() && m.buttons == []
  {
    m := new NotificationMessage();
  }

  method GetButton() returns (b: NotificationMessageButton)
    ensures fresh(b) && b.content == None && b.callback == Callback(None)
  {
    b := new NotificationMessageButton();
  }
}
