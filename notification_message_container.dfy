// The container control (`Controls.NotificationMessageContainer`): it listens to one
// manager and keeps its `Items` equal to the manager's queued messages.

/** The message of the `InvalidOperationException` both handlers throw. */
const BothItemSources := "Can't use both ItemsSource and Items collection at the same time."

/** What a container makes of the events one manager call raises: the outcome and its new `Items`. */
datatype Delivery = Delivery(outcome: Outcome<Error>, items: seq<NotificationMessage>)

/**
 * The container's reaction to the (at most one) event of a manager call. With no event
 * nothing happens; with `ItemsSource` set the handler throws and `Items` is kept;
 * otherwise `Items` replays the event exactly as the mirror of the manager's log does.
 */
function Deliver(items: seq<NotificationMessage>, usesItemsSource: bool,
                 raised: seq<Event<NotificationMessage>>): (d: Delivery)
  requires |raised| <= 1
  ensures raised == [] ==> d == Delivery(Pass, items)
  ensures raised != [] && usesItemsSource ==> d == Delivery(Fail(InvalidOperation(BothItemSources)), items)
  ensures !usesItemsSource ==> d == Delivery(Pass, Mirror(items, raised))
{
  if raised == [] then Delivery(Pass, items)
  else if usesItemsSource then Delivery(Fail(InvalidOperation(BothItemSources)), items)
  else
    assert raised[..0] == [];
    Delivery(Pass, Apply(items, raised[0]))
}

/** The managers a container's `Manager` change touches: the old one and the new one. */
ghost function Managers(a: NotificationMessageManager?, b: NotificationMessageManager?): set<NotificationMessageManager> {
  (if a == null then {} else {a}) + (if b == null then {} else {b})
}

/**
 * The container. `items` is `Items` (restricted to messages), and `usesItemsSource`
 * says whether `ItemsSource` is set; what it holds does not matter here.
 */
class NotificationMessageContainer {
  var manager: NotificationMessageManager?
  var items: seq<NotificationMessage>
  var usesItemsSource: bool

  /** A new container: no manager, no items, no `ItemsSource`. */
  constructor ()
    ensures manager == null && items == [] && !usesItemsSource
  {
    manager := null;
    items := [];
    usesItemsSource := false;
  }

  /** The container is subscribed to `m` and shows exactly the messages `m` has queued. */
  ghost predicate Mirrors(m: NotificationMessageManager)
    reads this, m
  {
    manager == m && m.observer == this && !usesItemsSource && items == m.queuedMessages
  }

  /** The handler of `OnMessageQueued`: append, unless `ItemsSource` is in use. */
  method OnMessageQueued(message: NotificationMessage) returns (r: Outcome<Error>)
    modifies this`items
    ensures usesItemsSource ==> r == Fail(InvalidOperation(BothItemSources)) && items == old(items)
    ensures !usesItemsSource ==> r == Pass && items == old(items) + [message]
    ensures Deliver(old(items), usesItemsSource, [Queued(message)]) == Delivery(r, items)
  {
    if usesItemsSource {
      return Fail(InvalidOperation(BothItemSources));
    }
    items := items + [message];
    r := Pass;
  }

  /** The handler of `OnMessageDismissed`: remove the first occurrence, unless `ItemsSource` is in use. */
  method OnMessageDismissed(message: NotificationMessage) returns (r: Outcome<Error>)
    modifies this`items
    ensures usesItemsSource ==> r == Fail(InvalidOperation(BothItemSources)) && items == old(items)
    ensures !usesItemsSource ==> r == Pass && items == RemoveFirst(old(items), message)
    ensures !usesItemsSource && message !in old(items) ==> items == old(items)
    ensures Deliver(old(items), usesItemsSource, [Dismissed(message)]) == Delivery(r, items)
  {
    if usesItemsSource {
      return Fail(InvalidOperation(BothItemSources));
    }
    items := RemoveFirst(items, message);
    r := Pass;
  }

  /**
   * Setting `Manager`. As for every dependency property, nothing happens when the value
   * does not change. Otherwise the handlers are removed from the old manager (which
   * stops listening only if it was this container it notified) and added to the new one.
   */
  method SetManager(newManager: NotificationMessageManager?)
    modifies this`manager, Managers(manager, newManager)`observer
    ensures manager == newManager
    ensures old(manager) == newManager ==> newManager == null || newManager.observer == old(newManager.observer)
    ensures old(manager) != newManager && newManager != null ==> newManager.observer == this
    ensures old(manager) != newManager && old(manager) != null ==>
      old(manager).observer == (if old(manager.observer) == this then null else old(manager.observer))
    ensures old(manager) != newManager && old(manager) != null ==> old(manager).observer != this
  {
    var oldManager := manager;
    if oldManager == newManager {
      return;
    }
    manager := newManager;
    if oldManager != null && oldManager.observer == this {
      oldManager.observer := null;
    }
    if newManager != null {
      newManager.observer := this;
    }
  }
}
