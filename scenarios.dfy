// Client code written against the modelled API: a container attached to a fresh manager,
// queueing through one builder twice, and the "Info" message of the sample window with
// two of its dismiss buttons clicked in turn.

/** The argument of one manager call as the reference it is passed as. */
function Argument(m: Option<NotificationMessage>): (a: NotificationMessage?)
  ensures OptionOf(a) == m
{
  if m.None? then null else m.value
}

/**
 * One call on a manager whose container mirrors it: `Perform`, the container keeps up,
 * and the call completes normally (a mirroring container has no `ItemsSource` to object to).
 */
method Call(manager: NotificationMessageManager, container: NotificationMessageContainer, op: Op<NotificationMessage>)
  returns (r: Outcome<Error>)
  requires manager.Valid() && container.Mirrors(manager)
  modifies manager, container
  ensures r == Pass
  ensures manager.Valid() && container.Mirrors(manager)
  ensures manager.queuedMessages == Perform(old(manager.queuedMessages), op).active
  ensures manager.log == old(manager.log) + Perform(old(manager.queuedMessages), op).raised
{
  match op {
    case QueueOp(m) =>
      r := manager.Queue(Argument(m));
    case DismissOp(m) =>
      r := manager.Dismiss(Argument(m));
  }
}

/**
 * A fresh manager with a fresh container attached to it, then the calls `ops` in order:
 * the manager ends where `Run` says and the container shows exactly the manager's
 * queued messages.
 */
method AttachedContainerMirrors(ops: seq<Op<NotificationMessage>>)
  returns (manager: NotificationMessageManager, container: NotificationMessageContainer)
  ensures manager.Valid()
  ensures manager.queuedMessages == Run([], ops).active && manager.log == Run([], ops).raised
  ensures container.Mirrors(manager)
{
  manager := new NotificationMessageManager();
  container := new NotificationMessageContainer();
  container.SetManager(manager);
  var i := 0;
  while i < |ops|
    invariant 0 <= i <= |ops|
    invariant manager.Valid() && container.Mirrors(manager)
    invariant manager.queuedMessages == Run([], ops[..i]).active && manager.log == Run([], ops[..i]).raised
  {
    assert ops[..i + 1][..i] == ops[..i];
    var _ := Call(manager, container, ops[i]);
    i := i + 1;
  }
  assert ops[..i] == ops;
}

/**
 * `Queue()` twice on one builder leaves the manager as one `Queue()` does: one entry for
 * the message and at most one `Queued` event.
 */
method BuilderQueueTwice(builder: NotificationMessageBuilder) returns (r: Result<NotificationMessage?, Error>)
  requires builder.manager != null && builder.manager.Valid()
  modifies ManagerFrame(builder.manager)
  ensures builder.manager.Valid()
  ensures builder.manager.queuedMessages == QueueStep(old(builder.manager.queuedMessages), OptionOf(builder.message)).active
  ensures builder.manager.log == old(builder.manager.log) + QueueStep(old(builder.manager.queuedMessages), OptionOf(builder.message)).raised
  ensures builder.message != null ==> multiset(builder.manager.queuedMessages)[builder.message] == 1
  ensures builder.manager.factory == old(builder.manager.factory) && builder.manager.observer == old(builder.manager.observer)
  ensures builder.manager.observer == null ==> r == Success(builder.message)
  ensures r.Success? ==> r.value == builder.message
  ensures builder.manager.observer != null ==>
    && builder.manager.observer.manager == old(builder.manager.observer.manager)
    && builder.manager.observer.usesItemsSource == old(builder.manager.observer.usesItemsSource)
    && Deliver(old(builder.manager.observer.items), builder.manager.observer.usesItemsSource,
               QueueStep(old(builder.manager.queuedMessages), OptionOf(builder.message)).raised)
       == Delivery(if r.Success? then Pass else Fail(r.error), builder.manager.observer.items)
  ensures builder.manager.observer != null && old(builder.manager.observer.items) == old(builder.manager.queuedMessages)
          && !builder.manager.observer.usesItemsSource ==>
    builder.manager.observer.items == builder.manager.queuedMessages
{
  ghost var before := builder.manager.queuedMessages;
  r := builder.Queue();
  if r.Failure? {
    return;
  }
  r := builder.Queue();
  assert builder.manager.queuedMessages == QueueStep(before, OptionOf(builder.message)).active;
  if builder.message != null {
    UniqueCount(builder.manager.queuedMessages, builder.message);
  }
}

/** In a list without duplicates, a member occurs exactly once. */
lemma UniqueCount<M>(s: seq<M>, x: M)
  requires NoDuplicates(s) && x in s
  ensures multiset(s)[x] == 1
{
  var i :| 0 <= i < |s| && s[i] == x;
  assert s == s[..i] + [x] + s[i + 1..];
  assert x !in s[..i] && x !in s[i + 1..] by {
    forall j | 0 <= j < |s| && j != i ensures s[j] != x {}
  }
}

/** The accent colour of the sample's "Info" message. */
const InfoAccent := Brush(1, "#1751C3")

/** The texts and accents of the sample's "Info" message, before its buttons are added. */
method InfoBuilder(manager: NotificationMessageManager, text: string) returns (builder: NotificationMessageBuilder)
  ensures fresh(builder) && builder.manager == manager && builder.message != null && fresh(builder.message)
  ensures builder.message.buttons == []
  ensures builder.message.badgeText == Some("Info") && builder.message.badgeVisibility == Visible
  ensures builder.message.message == Some(text) && builder.message.messageVisibility == Visible
  ensures builder.message.header == None && builder.message.headerVisibility == Collapsed
  ensures builder.message.badgeAccentBrush == Some(InfoAccent) && builder.message.buttonAccentBrush == Some(InfoAccent)
{
  builder := CreateMessage(manager);
  var b := builder.Accent(Some(InfoAccent));
  b := b.Background(Some(Brush(2, "#333")));
  b := b.HasBadge(Some("Info"));
  b := b.HasMessage(Some(text));
}

/** Three dismiss buttons, the sample's "Update now", "Release notes" and "Later". */
method AddInfoButtons(builder: NotificationMessageBuilder)
  requires builder.manager != null && builder.message != null && builder.message.buttons == []
  modifies builder.message
  ensures builder.message.State() == old(builder.message.State())
  ensures |builder.message.buttons| == 3
  ensures forall k :: 0 <= k < 3 ==> builder.message.buttons[k].callback == DismissThen(builder, Some(UserCode(k)))
{
  var b := Dismiss(builder).value.WithButton(Some(Text("Update now")), Some(UserCode(0)));
  var one := builder.message.buttons;
  b := Dismiss(b).value.WithButton(Some(Text("Release notes")), Some(UserCode(1)));
  var two := builder.message.buttons;
  assert two[..1] == one;
  b := Dismiss(b).value.WithButton(Some(Text("Later")), Some(UserCode(2)));
  assert builder.message.buttons[..2] == two;
}

/** `Queue` on a builder whose message is not yet queued: it is appended and announced once. */
method QueueFresh(manager: NotificationMessageManager, builder: NotificationMessageBuilder)
  returns (r: Result<NotificationMessage?, Error>)
  requires manager.Valid() && (manager.observer != null ==> !manager.observer.usesItemsSource)
  requires builder.manager == manager && builder.message != null && builder.message !in manager.queuedMessages
  modifies manager, manager.observer
  ensures r == Success(builder.message)
  ensures manager.Valid() && manager.factory == old(manager.factory) && manager.observer == old(manager.observer)
  ensures manager.observer != null ==>
    manager.observer.manager == old(manager.observer.manager)
    && manager.observer.usesItemsSource == old(manager.observer.usesItemsSource)
  ensures manager.observer != null && old(manager.observer.items) == old(manager.queuedMessages) ==>
    manager.observer.items == manager.queuedMessages
  ensures manager.queuedMessages == old(manager.queuedMessages) + [builder.message]
  ensures manager.log == old(manager.log) + [Queued(builder.message)]
{
  r := builder.Queue();
}

/**
 * The sample window's "Info" message: accent, background, badge "Info", a message text
 * and three dismiss buttons, then queued on `manager`.
 */
method InfoMessage(manager: NotificationMessageManager, text: string)
  returns (builder: NotificationMessageBuilder, message: NotificationMessage)
  requires manager.Valid() && (manager.observer != null ==> !manager.observer.usesItemsSource)
  modifies manager, manager.observer
  ensures manager.Valid() && builder.manager == manager && builder.message == message
  ensures manager.factory == old(manager.factory) && manager.observer == old(manager.observer)
  ensures manager.observer != null ==>
    manager.observer.manager == old(manager.observer.manager)
    && manager.observer.usesItemsSource == old(manager.observer.usesItemsSource)
  ensures manager.observer != null && old(manager.observer.items) == old(manager.queuedMessages) ==>
    manager.observer.items == manager.queuedMessages
  ensures manager.queuedMessages == old(manager.queuedMessages) + [message]
  ensures manager.log == old(manager.log) + [Queued(message)]
  ensures message.badgeText == Some("Info") && message.badgeVisibility == Visible
  ensures message.message == Some(text) && message.messageVisibility == Visible
  ensures message.header == None && message.headerVisibility == Collapsed
  ensures message.badgeAccentBrush == Some(InfoAccent) && message.buttonAccentBrush == Some(InfoAccent)
  ensures |message.buttons| == 3
  ensures forall k :: 0 <= k < 3 ==> message.buttons[k].callback == DismissThen(builder, Some(UserCode(k)))
{
  builder := InfoBuilder(manager, text);
  message := builder.message;
  AddInfoButtons(builder);
  var r := QueueFresh(manager, builder);
}

/** A dismiss button of a queued message: one `Dismissed` event, then the application callback. */
method ClickWhileQueued(manager: NotificationMessageManager, builder: NotificationMessageBuilder,
                        button: NotificationMessageButton) returns (ghost effects: seq<Effect>)
  requires manager.Valid() && (manager.observer != null ==> !manager.observer.usesItemsSource)
  requires builder.manager == manager && builder.message != null && builder.message in manager.queuedMessages
  requires button.callback.DismissThen? && button.callback.builder == builder
  modifies manager, manager.observer
  ensures manager.Valid() && manager.observer == old(manager.observer) && manager.factory == old(manager.factory)
  ensures manager.observer != null ==> !manager.observer.usesItemsSource
  ensures manager.observer != null ==>
    manager.observer.manager == old(manager.observer.manager)
    && manager.observer.usesItemsSource == old(manager.observer.usesItemsSource)
  ensures manager.observer != null && old(manager.observer.items) == old(manager.queuedMessages) ==>
    manager.observer.items == manager.queuedMessages
  ensures manager.log == old(manager.log) + [Dismissed(builder.message)]
  ensures builder.message !in manager.queuedMessages
  ensures effects == [Raised(Dismissed(builder.message))] + Runs(button.callback.code)
{
  ghost var m: NotificationMessage := builder.message;
  assert DismissStep(manager.queuedMessages, Some(m)).raised == [Dismissed(m)];
  var r;
  r, effects := Click(button);
}

/** A dismiss button of a message that is no longer queued: no event, only the application callback. */
method ClickAfterDismissed(manager: NotificationMessageManager, builder: NotificationMessageBuilder,
                           button: NotificationMessageButton) returns (ghost effects: seq<Effect>)
  requires manager.Valid()
  requires builder.manager == manager && builder.message !in manager.queuedMessages
  requires button.callback.DismissThen? && button.callback.builder == builder
  modifies manager, manager.observer
  ensures manager.Valid() && manager.queuedMessages == old(manager.queuedMessages) && manager.log == old(manager.log)
  ensures manager.observer == old(manager.observer) && manager.factory == old(manager.factory)
  ensures manager.observer != null ==> manager.observer.items == old(manager.observer.items)
  ensures manager.observer != null ==>
    manager.observer.manager == old(manager.observer.manager)
    && manager.observer.usesItemsSource == old(manager.observer.usesItemsSource)
  ensures effects == Runs(button.callback.code)
{
  assert DismissStep(manager.queuedMessages, OptionOf(builder.message)) == Step(manager.queuedMessages, []);
  var r;
  r, effects := Click(button);
}

/**
 * Clicking two dismiss buttons of one queued message, one after the other: one
 * `Dismissed` event in all, the message is no longer queued, and both application
 * callbacks run, in click order.
 */
method ClickTwoDismissButtons(manager: NotificationMessageManager, builder: NotificationMessageBuilder,
                              first: NotificationMessageButton, second: NotificationMessageButton)
  returns (ghost effects: seq<Effect>)
  requires manager.Valid() && (manager.observer != null ==> !manager.observer.usesItemsSource)
  requires builder.manager == manager && builder.message != null && builder.message in manager.queuedMessages
  requires first.callback.DismissThen? && first.callback.builder == builder
  requires second.callback.DismissThen? && second.callback.builder == builder
  modifies manager, manager.observer
  ensures manager.Valid()
  ensures manager.observer == old(manager.observer) && manager.factory == old(manager.factory)
  ensures manager.observer != null ==>
    manager.observer.manager == old(manager.observer.manager)
    && manager.observer.usesItemsSource == old(manager.observer.usesItemsSource)
  ensures manager.observer != null && old(manager.observer.items) == old(manager.queuedMessages) ==>
    manager.observer.items == manager.queuedMessages
  ensures manager.log == old(manager.log) + [Dismissed(builder.message)]
  ensures builder.message !in manager.queuedMessages
  ensures effects == [Raised(Dismissed(builder.message))] + Runs(first.callback.code) + Runs(second.callback.code)
{
  var e1 := ClickWhileQueued(manager, builder, first);
  var e2 := ClickAfterDismissed(manager, builder, second);
  effects := e1 + e2;
}

/** The "Info" message shown in the sample window's attached container: it stays in step. */
method InfoMessageMirrored(manager: NotificationMessageManager, container: NotificationMessageContainer, text: string)
  returns (builder: NotificationMessageBuilder, message: NotificationMessage)
  requires manager.Valid() && container.Mirrors(manager)
  modifies manager, container
  ensures manager.Valid() && container.Mirrors(manager)
  ensures container.items == old(container.items) + [message]
{
  builder, message := InfoMessage(manager, text);
}

/**
 * Two dismiss clicks with the container attached: it stays in step, loses the message,
 * and keeps every other item in order.
 */
method ClicksMirrored(manager: NotificationMessageManager, container: NotificationMessageContainer,
                      builder: NotificationMessageBuilder, first: NotificationMessageButton, second: NotificationMessageButton)
  returns (ghost effects: seq<Effect>)
  requires manager.Valid() && container.Mirrors(manager)
  requires builder.manager == manager && builder.message != null && builder.message in manager.queuedMessages
  requires first.callback.DismissThen? && first.callback.builder == builder
  requires second.callback.DismissThen? && second.callback.builder == builder
  modifies manager, container
  ensures manager.Valid() && container.Mirrors(manager)
  ensures builder.message !in container.items
  ensures container.items == RemoveFirst(old(container.items), builder.message)
{
  ghost var l := manager.log;
  effects := ClickTwoDismissButtons(manager, builder, first, second);
  assert (l + [Dismissed(builder.message)])[..|l|] == l;
}

/**
 * `Animates` and `AnimationDuration` on both kinds of message: the control takes them,
 * a message without the animation capability keeps its state.
 */
method AnimationSettings(animates: bool, duration: real)
  returns (control: NotificationMessage, plain: NotificationMessage)
  ensures control.animation == Some(Animation(animates, duration))
  ensures control.State() == Default().(animation := Some(Animation(animates, duration)))
  ensures plain.State() == Default().(animation := None)
{
  control := new NotificationMessage();
  control.SetAnimates(animates);
  control.SetAnimationDuration(duration);
  plain := new NotificationMessage.WithoutAnimation();
  plain.SetAnimates(animates);
  plain.SetAnimationDuration(duration);
}
