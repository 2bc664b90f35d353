// The static extension methods of `NotificationMessageBuilderLinq` that are not builder
// members here: creating a builder from a manager, the dismiss wrapper, and the
// dismiss-then-callback action (with what a click on such a button does).

/**
 * `manager.CreateMessage()`: a new builder bound to `manager` and to a new message from
 * the manager's factory; the manager itself is not changed.
 */
method CreateMessage(manager: NotificationMessageManager?) returns (builder: NotificationMessageBuilder)
  requires manager != null
  ensures fresh(builder) && builder.manager == manager
  ensures builder.message != null && fresh(builder.message)
  ensures builder.message.State() == Default() && builder.message.buttons == []
{
  builder := new NotificationMessageBuilder.CreateMessage();
  builder.manager := manager;
  builder.message := manager.factory.GetMessage();
}

/** `builder.Dismiss()`: the wrapper around `builder`, or `ArgumentNullException` for null. */
function Dismiss(builder: NotificationMessageBuilder?): (r: Result<DismissNotificationMessage, Error>)
  ensures builder == null ==> r == Failure(ArgumentNull("builder"))
  ensures builder != null ==> r.Success? && r.value.builder == builder
{
  DismissNotificationMessage.Create(builder)
}

/**
 * `builder.DismissBefore(callback)`: the action a dismiss button gets. It only captures
 * the builder and the callback; what it does when clicked is `Click` below.
 */
function DismissBefore(builder: NotificationMessageBuilder, callback: Option<UserCode>): (c: ButtonCallback)
  ensures c.DismissThen? && c.builder == builder && c.code == callback
{
  DismissThen(builder, callback)
}

/** What a click made happen, in order. */
datatype Effect = Raised(event: Event<NotificationMessage>) | Ran(code: UserCode)

function Notices(raised: seq<Event<NotificationMessage>>): (effects: seq<Effect>)
  ensures |effects| == |raised| && forall i :: 0 <= i < |raised| ==> effects[i] == Raised(raised[i])
{
  if raised == [] then [] else [Raised(raised[0])] + Notices(raised[1..])
}

function Runs(code: Option<UserCode>): (effects: seq<Effect>)
  ensures code.None? <==> effects == []
  ensures code.Some? ==> effects == [Ran(code.value)]
{
  if code.None? then [] else [Ran(code.value)]
}

/**
 * Clicking a button invokes its callback with the button. An application callback just
 * runs (a null one does nothing). A `DismissBefore` callback first dismisses
 * `builder.Message` through `builder.Manager`, both read at click time, and then runs
 * the application callback, unless the dismissal threw.
 */
method Click(button: NotificationMessageButton) returns (r: Outcome<Error>, ghost effects: seq<Effect>)
  requires button.callback.DismissThen? ==>
    button.callback.builder.manager != null && button.callback.builder.manager.Valid()
  modifies if button.callback.DismissThen? then ManagerFrame(button.callback.builder.manager) else {}
  ensures button.callback.Callback? ==> r == Pass && effects == Runs(button.callback.code)
  ensures button.callback.DismissThen? ==>
    var m := button.callback.builder.manager;
    var step := DismissStep(old(m.queuedMessages), OptionOf(old(button.callback.builder.message)));
    && m.Valid()
    && m.queuedMessages == step.active
    && m.log == old(m.log) + step.raised
    && (r.Pass? ==> effects == Notices(step.raised) + Runs(button.callback.code))
    && (r.Fail? ==> effects == Notices(step.raised))
  ensures button.callback.DismissThen? ==>
    var m := button.callback.builder.manager;
    && m.factory == old(m.factory)
    && m.observer == old(m.observer)
    && (m.observer == null ==> r == Pass)
  ensures button.callback.DismissThen? && button.callback.builder.manager.observer != null ==>
    var m := button.callback.builder.manager;
    var step := DismissStep(old(m.queuedMessages), OptionOf(old(button.callback.builder.message)));
    && m.observer.manager == old(m.observer.manager)
    && m.observer.usesItemsSource == old(m.observer.usesItemsSource)
    && Deliver(old(m.observer.items), m.observer.usesItemsSource, step.raised) == Delivery(r, m.observer.items)
  ensures button.callback.DismissThen? && button.callback.builder.manager.observer != null ==>
    var m := button.callback.builder.manager;
    old(m.observer.items) == old(m.queuedMessages) && !m.observer.usesItemsSource ==>
      m.observer.items == m.queuedMessages
{
  match button.callback
  case Callback(code) =>
    r, effects := Pass, Runs(code);
  case DismissThen(builder, code) =>
    ghost var before := builder.manager.queuedMessages;
    r := builder.manager.Dismiss(builder.message);
    effects := Notices(DismissStep(before, OptionOf(builder.message)).raised);
    if r.Pass? {
      effects := effects + Runs(code);
    }
}
