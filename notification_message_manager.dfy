// The notification manager (`NotificationMessageManager`): the ordered list of queued
// messages, the two events it raises, and the one container that may listen to them.

/**
 * The manager. `queuedMessages` is the private list; `log` records, in order, every
 * event the manager has raised. `observer` is the container whose handlers are
 * subscribed to both events, or null when no container is.
 */
class NotificationMessageManager {
  var queuedMessages: seq<NotificationMessage>
  ghost var log: seq<Event<NotificationMessage>>
  var factory: NotificationMessageFactory
  var observer: NotificationMessageContainer?

  /** The list never holds a message twice, and it is what replaying the event log yields. */
  ghost predicate Valid()
    reads this
  {
    NoDuplicates(queuedMessages) && queuedMessages == Mirror([], log)
  }

  /** A new manager: no messages, no events, no listener, and its own default factory. */
  constructor ()
    ensures Valid()
    ensures queuedMessages == [] && log == [] && observer == null && fresh(factory)
  {
    queuedMessages := [];
    log := [];
    factory := new NotificationMessageFactory();
    observer := null;
  }

  /**
   * `Queue(message)`: the list and the event log follow `QueueStep`. A raised event is
   * delivered to the subscribed container, if any; an exception its handler throws
   * leaves the call after the list has already changed.
   */
  method Queue(message: NotificationMessage?) returns (r: Outcome<Error>)
    requires Valid()
    modifies this, observer
    ensures Valid()
    ensures queuedMessages == QueueStep(old(queuedMessages), OptionOf(message)).active
    ensures log == old(log) + QueueStep(old(queuedMessages), OptionOf(message)).raised
    ensures factory == old(factory) && observer == old(observer)
    ensures observer == null ==> r == Pass
    ensures observer != null ==>
      && observer.manager == old(observer.manager)
      && observer.usesItemsSource == old(observer.usesItemsSource)
      && Deliver(old(observer.items), observer.usesItemsSource, QueueStep(old(queuedMessages), OptionOf(message)).raised)
         == Delivery(r, observer.items)
    ensures observer != null && old(observer.items) == old(queuedMessages) && !observer.usesItemsSource ==>
      observer.items == queuedMessages
  {
    r := Pass;
    if message == null || message in queuedMessages {
      return;
    }
    queuedMessages := queuedMessages + [message];
    log := log + [Queued(message)];
    r := TriggerMessageQueued(message);
    PerformMirrored(old(queuedMessages), QueueOp(OptionOf(message)));
  }

  /**
   * `Dismiss(message)`: the list and the event log follow `DismissStep`; delivery to the
   * subscribed container as for `Queue`.
   */
  method Dismiss(message: NotificationMessage?) returns (r: Outcome<Error>)
    requires Valid()
    modifies this, observer
    ensures Valid()
    ensures queuedMessages == DismissStep(old(queuedMessages), OptionOf(message)).active
    ensures log == old(log) + DismissStep(old(queuedMessages), OptionOf(message)).raised
    ensures factory == old(factory) && observer == old(observer)
    ensures observer == null ==> r == Pass
    ensures observer != null ==>
      && observer.manager == old(observer.manager)
      && observer.usesItemsSource == old(observer.usesItemsSource)
      && Deliver(old(observer.items), observer.usesItemsSource, DismissStep(old(queuedMessages), OptionOf(message)).raised)
         == Delivery(r, observer.items)
    ensures observer != null && old(observer.items) == old(queuedMessages) && !observer.usesItemsSource ==>
      observer.items == queuedMessages
  {
    r := Pass;
    if message == null || message !in queuedMessages {
      return;
    }
    var m: NotificationMessage := message;
    DismissPresent(queuedMessages, log, m);
    queuedMessages := RemoveFirst(queuedMessages, m);
    log := log + [Dismissed(m)];
    r := TriggerMessageDismissed(m);
  }

  /** Raises `OnMessageQueued`: the subscribed container's handler runs, if there is one. */
  method TriggerMessageQueued(message: NotificationMessage) returns (r: Outcome<Error>)
    modifies observer
    ensures observer == null ==> r == Pass
    ensures observer != null ==>
      && observer.manager == old(observer.manager)
      && observer.usesItemsSource == old(observer.usesItemsSource)
      && Deliver(old(observer.items), observer.usesItemsSource, [Queued(message)]) == Delivery(r, observer.items)
  {
    r := Pass;
    if observer != null {
      r := observer.OnMessageQueued(message);
    }
  }

  /** Raises `OnMessageDismissed`: the subscribed container's handler runs, if there is one. */
  method TriggerMessageDismissed(message: NotificationMessage) returns (r: Outcome<Error>)
    modifies observer
    ensures observer == null ==> r == Pass
    ensures observer != null ==>
      && observer.manager == old(observer.manager)
      && observer.usesItemsSource == old(observer.usesItemsSource)
      && Deliver(old(observer.items), observer.usesItemsSource, [Dismissed(message)]) == Delivery(r, observer.items)
  {
    r := Pass;
    if observer != null {
      r := observer.OnMessageDismissed(message);
    }
  }
}
