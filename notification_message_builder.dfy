// The builder (`NotificationMessageBuilder`) together with its fluent extension methods
// (`NotificationMessageBuilderLinq`), which are members of the class here.

/** The objects `Manager.Queue` and `Manager.Dismiss` may change: the manager and its listener. */
ghost function ManagerFrame(m: NotificationMessageManager?): set<object?>
  reads m
{
  if m == null then {} else {m, m.observer}
}

/**
 * A builder is bound to one manager and one message; both start out null (the static
 * `CreateMessage()`) and are filled in by the manager's `CreateMessage` extension.
 */
class NotificationMessageBuilder {
  var message: NotificationMessage?
  var manager: NotificationMessageManager?

  /** The static `NotificationMessageBuilder.CreateMessage()`: a builder bound to nothing yet. */
  constructor CreateMessage()
    ensures message == null && manager == null
  {
    message := null;
    manager := null;
  }

  method SetHeader(header: Option<string>)
    requires message != null
    modifies message
    ensures message.State() == WithHeader(old(message.State()), header) && message.buttons == old(message.buttons)
  {
    message.SetHeader(header);
  }

  method SetMessage(text: Option<string>)
    requires message != null
    modifies message
    ensures message.State() == WithMessage(old(message.State()), text) && message.buttons == old(message.buttons)
  {
    message.SetMessage(text);
  }

  method SetBadge(badgeText: Option<string>)
    requires message != null
    modifies message
    ensures message.State() == WithBadgeText(old(message.State()), badgeText) && message.buttons == old(message.buttons)
  {
    message.SetBadgeText(badgeText);
  }

  method SetAccent(accentBrush: Option<Brush>)
    requires message != null
    modifies message
    ensures message.State() == WithAccent(old(message.State()), accentBrush) && message.buttons == old(message.buttons)
  {
    message.SetAccentBrush(accentBrush);
  }

  method SetBackground(backgroundBrush: Option<Brush>)
    requires message != null
    modifies message
    ensures message.State() == WithBackground(old(message.State()), backgroundBrush) && message.buttons == old(message.buttons)
  {
    message.SetBackground(backgroundBrush);
  }

  method SetOverlay(overlay: Option<Content>)
    requires message != null
    modifies message
    ensures message.State() == MessageProperties.WithOverlay(old(message.State()), overlay) && message.buttons == old(message.buttons)
  {
    message.SetOverlayContent(overlay);
  }

  method SetForeground(brush: Option<Brush>)
    requires message != null
    modifies message
    ensures message.State() == WithForeground(old(message.State()), brush) && message.buttons == old(message.buttons)
  {
    message.SetForeground(brush);
  }

  /** Has no effect on a message without the animation capability. */
  method SetAnimates(animates: bool)
    requires message != null
    modifies message
    ensures message.State() == WithAnimates(old(message.State()), animates) && message.buttons == old(message.buttons)
  {
    message.SetAnimates(animates);
  }

  /** Has no effect on a message without the animation capability. */
  method SetAnimationDuration(duration: real)
    requires message != null
    modifies message
    ensures message.State() == WithAnimationDuration(old(message.State()), duration) && message.buttons == old(message.buttons)
  {
    message.SetAnimationDuration(duration);
  }

  /** A null button is rejected before the message is looked at; any other is appended last. */
  method AddButton(button: NotificationMessageButton?) returns (r: Outcome<Error>)
    requires button != null ==> message != null
    modifies message
    ensures button == null <==> r == Fail(ArgumentNull("button"))
    ensures button != null ==> r == Pass
    ensures message != null && button == null ==> message.buttons == old(message.buttons)
    ensures message != null && button != null ==> message.buttons == old(message.buttons) + [button]
    ensures message != null ==> message.State() == old(message.State())
  {
    if button == null {
      return Fail(ArgumentNull("button"));
    }
    message.AddToButtons(button);
    r := Pass;
  }

  /**
   * Submits the message to the manager and returns it; if the manager's listener throws,
   * the exception leaves this call instead.
   */
  method Queue() returns (r: Result<NotificationMessage?, Error>)
    requires manager != null && manager.Valid()
    modifies ManagerFrame(manager)
    ensures manager.Valid() && manager.observer == old(manager.observer)
    ensures manager.queuedMessages == QueueStep(old(manager.queuedMessages), OptionOf(message)).active
    ensures manager.log == old(manager.log) + QueueStep(old(manager.queuedMessages), OptionOf(message)).raised
    ensures r.Success? ==> r.value == message
    ensures manager.factory == old(manager.factory)
    ensures manager.observer == null ==> r == Success(message)
    ensures manager.observer != null ==>
      && manager.observer.manager == old(manager.observer.manager)
      && manager.observer.usesItemsSource == old(manager.observer.usesItemsSource)
      && Deliver(old(manager.observer.items), manager.observer.usesItemsSource,
                 QueueStep(old(manager.queuedMessages), OptionOf(message)).raised)
         == Delivery(if r.Success? then Pass else Fail(r.error), manager.observer.items)
    ensures manager.observer != null && old(manager.observer.items) == old(manager.queuedMessages)
            && !manager.observer.usesItemsSource ==>
      manager.observer.items == manager.queuedMessages
  {
    var outcome := manager.Queue(message);
    if outcome.Fail? {
      return Failure(outcome.error);
    }
    r := Success(message);
  }

  /** `HasHeader`: `SetHeader`, then the same builder. */
  method HasHeader(header: Option<string>) returns (b: NotificationMessageBuilder)
    requires message != null
    modifies message
    ensures b == this
    ensures message.State() == WithHeader(old(message.State()), header) && message.buttons == old(message.buttons)
  {
    SetHeader(header);
    b := this;
  }

  /** `HasMessage`: `SetMessage`, then the same builder. */
  method HasMessage(text: Option<string>) returns (b: NotificationMessageBuilder)
    requires message != null
    modifies message
    ensures b == this
    ensures message.State() == WithMessage(old(message.State()), text) && message.buttons == old(message.buttons)
  {
    SetMessage(text);
    b := this;
  }

  /** `HasBadge`: `SetBadge`, then the same builder. */
  method HasBadge(badgeText: Option<string>) returns (b: NotificationMessageBuilder)
    requires message != null
    modifies message
    ensures b == this
    ensures message.State() == WithBadgeText(old(message.State()), badgeText) && message.buttons == old(message.buttons)
  {
    SetBadge(badgeText);
    b := this;
  }

  /** `Accent(Brush)`: `SetAccent`, then the same builder. */
  method Accent(accentBrush: Option<Brush>) returns (b: NotificationMessageBuilder)
    requires message != null
    modifies message
    ensures b == this
    ensures message.State() == WithAccent(old(message.State()), accentBrush) && message.buttons == old(message.buttons)
  {
    SetAccent(accentBrush);
    b := this;
  }

  /** `Background(Brush)`: `SetBackground`, then the same builder. */
  method Background(backgroundBrush: Option<Brush>) returns (b: NotificationMessageBuilder)
    requires message != null
    modifies message
    ensures b == this
    ensures message.State() == WithBackground(old(message.State()), backgroundBrush) && message.buttons == old(message.buttons)
  {
    SetBackground(backgroundBrush);
    b := this;
  }

  /** `WithOverlay`: `SetOverlay`, then the same builder. */
  method WithOverlay(overlay: Option<Content>) returns (b: NotificationMessageBuilder)
    requires message != null
    modifies message
    ensures b == this
    ensures message.State() == MessageProperties.WithOverlay(old(message.State()), overlay) && message.buttons == old(message.buttons)
  {
    SetOverlay(overlay);
    b := this;
  }

  /**
   * `WithButton(content, callback)`: one new button from the manager's factory, with the
   * given content and callback, appended after the existing buttons; then the same builder.
   */
  method WithButton(content: Option<Content>, callback: ButtonCallback) returns (b: NotificationMessageBuilder)
    requires manager != null && message != null
    modifies message
    ensures b == this
    ensures |message.buttons| == |old(message.buttons)| + 1
    ensures message.buttons[..|old(message.buttons)|] == old(message.buttons)
    ensures fresh(message.buttons[|old(message.buttons)|])
    ensures message.buttons[|old(message.buttons)|].content == content
    ensures message.buttons[|old(message.buttons)|].callback == callback
    ensures message.State() == old(message.State())
  {
    var button := manager.factory.GetButton();
    button.callback := callback;
    button.content := content;
    var _ := AddButton(button);
    b := this;
  }
}

/**
 * The wrapper `Dismiss()` returns (`DismissNotificationMessage`; the extension methods
 * call the same type `DismissNotificationMessageButton`): it holds a non-null builder and
 * marks the next button as one that dismisses the builder's message.
 */
datatype DismissNotificationMessage = DismissNotificationMessage(builder: NotificationMessageBuilder)
{
  /** The constructor: a null builder is an `ArgumentNullException`. */
  static function Create(builder: NotificationMessageBuilder?): (r: Result<DismissNotificationMessage, Error>)
    ensures builder == null <==> r == Failure(ArgumentNull("builder"))
    ensures r.Success? ==> r.value.builder == builder
  {
    if builder == null then Failure(ArgumentNull("builder")) else Success(DismissNotificationMessage(builder))
  }

  /**
   * `Dismiss().WithButton(content, callback)`: a button on the underlying builder whose
   * callback is `DismissBefore(builder, callback)`; returns that builder.
   */
  method WithButton(content: Option<Content>, callback: Option<UserCode>) returns (b: NotificationMessageBuilder)
    requires builder.manager != null && builder.message != null
    modifies builder.message
    ensures b == builder
    ensures |b.message.buttons| == |old(b.message.buttons)| + 1
    ensures b.message.buttons[..|old(b.message.buttons)|] == old(b.message.buttons)
    ensures fresh(b.message.buttons[|old(b.message.buttons)|])
    ensures b.message.buttons[|old(b.message.buttons)|].content == content
    ensures b.message.buttons[|old(b.message.buttons)|].callback == DismissBefore(builder, callback)
    ensures b.message.State() == old(b.message.State())
  {
    b := builder.WithButton(content, DismissBefore(builder, callback));
  }
}
