# Enterwell WPF notifications: a verified model of the notification lifecycle

This project models the core of the Enterwell.Clients.Wpf.Notifications library:
- the **notification manager**, which keeps an ordered list of the messages it has queued, each one at most once. It raises a `Queued` or `Dismissed` event whenever the list really changes.
- the **builder**, which is bound to one manager and one factory-made message, together with its fluent extension methods:
  - it sets the message's properties;
  - it adds buttons, including dismiss buttons whose callback first dismisses the message and then runs the application's callback;
  - it queues the message.
- the **message control's** property rules:
  - each visibility flag follows its text;
  - the accent brush propagates into the badge and button accents while those are still unset;
  - it has defaults.
- the **container control**, which subscribes to one manager and keeps its `Items` equal to the manager's list. It reports a usage error when `ItemsSource` is in use.
- `ActionExtensions.DoAfter`, the null-safe sequential composition of two actions.

Layout:
- Value-level rules live in three modules:
  - `Lifecycle`: the list as a value, the events, and a container that replays events.
  - `MessageProperties`: the message's properties as one record, with one function per property assignment.
  - `ActionExtensions`.
- `Wrappers` provides `Option`, `Result` and `Outcome`, which stand for null, a thrown exception and normal completion.

The library's classes refer to one another in a cycle:
- a message holds buttons;
- a button's callback holds a builder;
- a builder holds a manager;
- a manager notifies a container;
- the container holds a manager.

So the classes `NotificationMessage`, `NotificationMessageButton`, `NotificationMessageFactory`, `NotificationMessageManager`, `NotificationMessageContainer` and `NotificationMessageBuilder` share the top-level module. Each one is a Dafny class with `modifies`-framed methods. Each message setter and each manager call is tied to the value-level function that specifies it; for example, `Manager.Queue` is tied to `Lifecycle.QueueStep`, and `NotificationMessage.SetAccentBrush` to `MessageProperties.WithAccent`. The remaining state-changing methods state their new fields directly: adding buttons, and setting a container's `Manager`.

The manager carries a ghost event log, and `Valid()` states two things:
- its list has no duplicates;
- its list equals the replay of the log (`Mirror([], log)`).

A container that starts in step with a manager replays exactly the events the manager raises (`Lifecycle.PerformMirrored` / `RunMirrored`). So it stays in step under any sequence of direct `Queue`/`Dismiss` calls (`AttachedContainerMirrors`). It also stays in step through one builder's `Queue()` and through a dismiss button's click, because `NotificationMessageBuilder.Queue` and `Click` carry the manager's in-step clause.

Four behaviours of the code worth noting, which the model follows:
- **Empty strings.** A visibility flag is `Visible` whenever its text is non-null; an empty string also counts as visible.
- **A throwing dismiss.** A `DismissBefore` callback runs the application callback only if `Manager.Dismiss` returned normally. If the container's handler throws during the dismissal, the application callback is skipped.
- **Re-queueing.** A dismissed message is not terminal: it can be queued again (`Lifecycle.RequeueAfterDismiss`).
- **Two names for one wrapper.** The dismiss wrapper is declared as `DismissNotificationMessage` (NotificationMessageBuilder.cs:166), but the extension methods use the name `DismissNotificationMessageButton` (NotificationMessageBuilderLinq.cs:139, 153). Both are the one datatype `DismissNotificationMessage`, which holds a non-null builder.

One inconsistency in the code is resolved by the model itself, not by the code:
- **Animation.** The builder's `SetAnimates` and `SetAnimationDuration` (NotificationMessageBuilder.cs:118, 127) assign `Animates` and `AnimationDuration` through `INotificationMessage`. That interface does not declare them; only `INotificationMessageAnimation` does (INotificationMessageAnimation.cs:10-15). As written, those two accesses do not resolve. The model treats animation as an optional capability: `Properties.animation` is `None` for a message without it (`NotificationMessage.WithoutAnimation`). On such a message the two setters do nothing, a no-op of the model's choosing that the code does not have.

A WPF dependency property calls its change callback only when the new value differs from the old one. For a brush, "differs" means "is a different object": a `Brush` carries an `id` that stands for its reference identity, so a second brush of the same colour counts as a change (`MessageProperties.NewBrushOfSameColour`). The setters of `NotificationMessage` and `NotificationMessageContainer.SetManager` follow that rule.

## Model

| member | source | states |
|---|---|---|
| Lifecycle.RemoveFirst | Enterwell.Clients.Wpf.Notifications/NotificationMessageManager.cs:67 | `List.Remove`: when the element is present, the result is the list with exactly its first occurrence deleted, one element shorter; otherwise the list is unchanged |
| Lifecycle.RemoveFirstCount | Enterwell.Clients.Wpf.Notifications/NotificationMessageManager.cs:67 | removal takes away exactly one copy of the element (a multiset difference) and nothing else |
| Lifecycle.RemoveFirstUnique | Enterwell.Clients.Wpf.Notifications/NotificationMessageManager.cs:67 | on a list without duplicates, removal keeps it duplicate-free, and the members afterwards are exactly the old members minus the removed one |
| Lifecycle.DeletePreservesNoDuplicates | Enterwell.Clients.Wpf.Notifications/NotificationMessageManager.cs:38-70 | deleting one position from a duplicate-free list leaves a duplicate-free list holding every other member |
| Lifecycle.QueueStep | Enterwell.Clients.Wpf.Notifications/NotificationMessageManager.cs:38-46 | a null or already queued message: no change and no event. A new message: appended after the unchanged earlier entries, with exactly one `Queued` event. Duplicate-freedom is preserved |
| Lifecycle.DismissStep | Enterwell.Clients.Wpf.Notifications/NotificationMessageManager.cs:62-70 | a null or absent message: no change and no event. A present message: deleted at its position, with the others in their relative order and exactly one `Dismissed` event. Duplicate-freedom is preserved, and the message is gone afterwards |
| Lifecycle.DismissPresent | Enterwell.Clients.Wpf.Notifications/NotificationMessageManager.cs:67-69 | for a present message of a valid list: what `DismissStep` yields, and that replaying the `Dismissed` event, on the log or on the list, gives the new list |
| Lifecycle.PerformMirrored | Enterwell.Clients.Wpf.Notifications/Controls/NotificationMessageContainer.cs:76-98 | replaying the events of one `Queue` or `Dismiss` call on the list that call started from gives exactly the list it produced |
| Lifecycle.RunMirrored | Enterwell.Clients.Wpf.Notifications/Controls/NotificationMessageContainer.cs:76-98 | for any sequence of manager calls, replaying all raised events on the starting list gives the final list |
| Lifecycle.RunKeepsNoDuplicates | Enterwell.Clients.Wpf.Notifications/NotificationMessageManager.cs:38-70 | no sequence of `Queue`/`Dismiss` calls ever puts a message into the list twice |
| Lifecycle.QueueTwice | Enterwell.Clients.Wpf.Notifications/NotificationMessageManager.cs:40-45 | `Queue(m); Queue(m)` for a new `m` gives one entry and one `Queued(m)` event |
| Lifecycle.DismissUnqueued | Enterwell.Clients.Wpf.Notifications/NotificationMessageManager.cs:64-65 | dismissing null or a message that is not queued changes nothing and raises nothing |
| Lifecycle.QueueThenDismiss | Enterwell.Clients.Wpf.Notifications/NotificationMessageManager.cs:38-70 | queueing a new message and then dismissing it restores the list and raises `[Queued(m), Dismissed(m)]` |
| Lifecycle.QueueDismissDismiss | Enterwell.Clients.Wpf.Notifications/NotificationMessageManager.cs:62-70 | `Queue(m); Dismiss(m); Dismiss(m)` raises exactly `[Queued(m), Dismissed(m)]` and restores the list |
| Lifecycle.RequeueAfterDismiss | Enterwell.Clients.Wpf.Notifications/NotificationMessageManager.cs:38-70 | after `Queue(m); Dismiss(m)`, `m` can be queued again, and a second `Queued(m)` is raised |
| MessageProperties.VisibilityOf | Enterwell.Clients.Wpf.Notifications/Controls/NotificationMessage.cs:277-279 | a text's visibility is `Visible` exactly when the text is non-null, and `Collapsed` otherwise |
| MessageProperties.Default | Enterwell.Clients.Wpf.Notifications/Controls/NotificationMessage.cs:184-326 | a fresh message: the three visibilities are `Collapsed`; texts and accents are null; the text colour is `#DDDDDD`; `Animates` is false with a duration of 0.25; the visibilities agree with the texts |
| MessageProperties.WithHeader | Enterwell.Clients.Wpf.Notifications/Controls/NotificationMessage.cs:271-280 | assigning `Header` changes only `Header` and `HeaderVisibility`. On a change the visibility is re-derived (`Visible` iff non-null); assigning the same value is a no-op |
| MessageProperties.WithMessage | Enterwell.Clients.Wpf.Notifications/Controls/NotificationMessage.cs:299-308 | the same rule for `Message` and `MessageVisibility` |
| MessageProperties.WithBadgeText | Enterwell.Clients.Wpf.Notifications/Controls/NotificationMessage.cs:243-252 | the same rule for `BadgeText` and `BadgeVisibility` |
| MessageProperties.WithAccent | Enterwell.Clients.Wpf.Notifications/Controls/NotificationMessage.cs:197-212 | on a change, the new accent is copied into the badge and button accents only where that accent is still null; accents already set are kept; nothing else changes |
| MessageProperties.WithBadgeAccent | Enterwell.Clients.Wpf.Notifications/Controls/NotificationMessage.cs:70-74 | assigns exactly `BadgeAccentBrush` |
| MessageProperties.WithButtonAccent | Enterwell.Clients.Wpf.Notifications/Controls/NotificationMessage.cs:46-50 | assigns exactly `ButtonAccentBrush` |
| MessageProperties.WithBackground | Enterwell.Clients.Wpf.Notifications/NotificationMessageBuilder.cs:90-93 | assigns exactly `Background` |
| MessageProperties.WithForeground | Enterwell.Clients.Wpf.Notifications/NotificationMessageBuilder.cs:107-110 | assigns exactly `Foreground` |
| MessageProperties.WithOverlay | Enterwell.Clients.Wpf.Notifications/Controls/NotificationMessage.cs:22-26 | assigns exactly `OverlayContent` |
| MessageProperties.WithAnimates | Enterwell.Clients.Wpf.Notifications/NotificationMessageBuilder.cs:116-119 | assigns `Animates` on an animation-capable message, and does nothing otherwise |
| MessageProperties.WithAnimationDuration | Enterwell.Clients.Wpf.Notifications/NotificationMessageBuilder.cs:125-128 | assigns `AnimationDuration` on an animation-capable message, and does nothing otherwise |
| MessageProperties.NewBrushOfSameColour | Enterwell.Clients.Wpf.Notifications/Controls/NotificationMessage.cs:197-212 | assigning a different brush object of the current accent's colour is a change: the accent callback runs, and it refills a cleared badge accent with the new brush |
| MessageProperties.AssignAllKeepsDerived | Enterwell.Clients.Wpf.Notifications/Controls/NotificationMessage.cs:243-308 | no chain of builder setters breaks the agreement of the three visibility flags with their texts |
| MessageProperties.AssignAllKeepsSettledAccents | Enterwell.Clients.Wpf.Notifications/Controls/NotificationMessage.cs:203-211 | once the badge and button accents are set, no chain of setters changes them; this includes accent changes |
| MessageProperties.AccentPropagatesOnce | Enterwell.Clients.Wpf.Notifications/Controls/NotificationMessage.cs:203-211 | starting with no accents, after any chain of setters the badge and button accents are the first non-null accent that was assigned |
| ActionExtensions.DoAfter | Enterwell.Clients.Wpf.Notifications/ActionExtensions.cs:18-25 | the composed action is never null. It runs the base action and then, on its resulting state, the after action. A null part is skipped; null plus null is a no-op; an exception from the base action skips the after action |
| ActionExtensions.DoAfterAssociative | Enterwell.Clients.Wpf.Notifications/ActionExtensions.cs:20-24 | composing three actions gives the same behaviour however the `DoAfter` calls are nested |
| NotificationMessage.constructor | Enterwell.Clients.Wpf.Notifications/Controls/NotificationMessage.cs:341-347 | a new control has the default properties and an empty `Buttons` |
| NotificationMessage.WithoutAnimation | Enterwell.Clients.Wpf.Notifications/INotificationMessageAnimation.cs:10-15 | a message without the animation members: the defaults, minus the animation capability. `AnimationSettings` uses it to exercise the setters' no-op branch |
| NotificationMessage.SetHeader | Enterwell.Clients.Wpf.Notifications/Controls/NotificationMessage.cs:106-110 | the new state is `WithHeader` of the old one; buttons are unchanged |
| NotificationMessage.SetMessage | Enterwell.Clients.Wpf.Notifications/Controls/NotificationMessage.cs:130-134 | the new state is `WithMessage` of the old one; buttons are unchanged |
| NotificationMessage.SetBadgeText | Enterwell.Clients.Wpf.Notifications/Controls/NotificationMessage.cs:82-86 | the new state is `WithBadgeText` of the old one; buttons are unchanged |
| NotificationMessage.SetAccentBrush | Enterwell.Clients.Wpf.Notifications/Controls/NotificationMessage.cs:34-38 | the new state is `WithAccent` of the old one; buttons are unchanged |
| NotificationMessage.SetBadgeAccentBrush | Enterwell.Clients.Wpf.Notifications/Controls/NotificationMessage.cs:70-74 | the new state is `WithBadgeAccent` of the old one |
| NotificationMessage.SetButtonAccentBrush | Enterwell.Clients.Wpf.Notifications/Controls/NotificationMessage.cs:46-50 | the new state is `WithButtonAccent` of the old one |
| NotificationMessage.SetBackground | Enterwell.Clients.Wpf.Notifications/INotificationMessage.cs:18 | the new state is `WithBackground` of the old one |
| NotificationMessage.SetForeground | Enterwell.Clients.Wpf.Notifications/NotificationMessageBuilder.cs:107-110 | the new state is `WithForeground` of the old one |
| NotificationMessage.SetOverlayContent | Enterwell.Clients.Wpf.Notifications/Controls/NotificationMessage.cs:22-26 | the new state is `WithOverlay` of the old one |
| NotificationMessage.SetAnimates | Enterwell.Clients.Wpf.Notifications/Controls/NotificationMessage.cs:154-158 | the new state is `WithAnimates` of the old one |
| NotificationMessage.SetAnimationDuration | Enterwell.Clients.Wpf.Notifications/Controls/NotificationMessage.cs:166-170 | the new state is `WithAnimationDuration` of the old one |
| NotificationMessage.AddToButtons | Enterwell.Clients.Wpf.Notifications/NotificationMessageBuilder.cs:65 | `Buttons.Add`: the button is appended; the other properties are unchanged |
| NotificationMessageFactory.GetMessage | Enterwell.Clients.Wpf.Notifications/NotificationMessageBuilderLinq.cs:128 | returns a new, unaliased message in the default state with no buttons |
| NotificationMessageButton.constructor | Enterwell.Clients.Wpf.Notifications/NotificationMessageBuilderLinq.cs:172 | a new button has no content and no callback |
| NotificationMessageFactory.GetButton | Enterwell.Clients.Wpf.Notifications/NotificationMessageBuilderLinq.cs:172 | returns a new, unaliased button with no content and no callback |
| NotificationMessageManager.constructor | Enterwell.Clients.Wpf.Notifications/NotificationMessageManager.cs:11-30 | a new manager: an empty list, an empty log, no listener, its own new factory, and the invariant holds |
| NotificationMessageManager.Queue | Enterwell.Clients.Wpf.Notifications/NotificationMessageManager.cs:38-46 | the list and the log move as `QueueStep` says, and the invariant is kept. The listener receives the raised event and the outcome is its handler's; a container in step with the list stays in step |
| NotificationMessageManager.Dismiss | Enterwell.Clients.Wpf.Notifications/NotificationMessageManager.cs:62-70 | the list and the log move as `DismissStep` says, and the invariant is kept. The listener receives the raised event and the outcome is its handler's; a container in step with the list stays in step |
| NotificationMessageManager.TriggerMessageQueued | Enterwell.Clients.Wpf.Notifications/NotificationMessageManager.cs:52-55 | with no listener nothing happens; otherwise the container's queued handler runs on the message |
| NotificationMessageManager.TriggerMessageDismissed | Enterwell.Clients.Wpf.Notifications/NotificationMessageManager.cs:76-79 | with no listener nothing happens; otherwise the container's dismissed handler runs on the message |
| Deliver | Enterwell.Clients.Wpf.Notifications/Controls/NotificationMessageContainer.cs:76-98 | a container's reaction to one call's events. No event: nothing. `ItemsSource` set: `InvalidOperationException` with `Items` kept. Otherwise `Items` becomes the replay of the events |
| NotificationMessageContainer.constructor | Enterwell.Clients.Wpf.Notifications/Controls/NotificationMessageContainer.cs:19-29 | a new container: `Manager` has its registered default null, `Items` is empty, and `ItemsSource` is not set |
| NotificationMessageContainer.OnMessageQueued | Enterwell.Clients.Wpf.Notifications/Controls/NotificationMessageContainer.cs:91-98 | with `ItemsSource` set: throws `InvalidOperationException` and leaves `Items` unchanged; otherwise appends the message |
| NotificationMessageContainer.OnMessageDismissed | Enterwell.Clients.Wpf.Notifications/Controls/NotificationMessageContainer.cs:76-83 | with `ItemsSource` set: throws `InvalidOperationException` and leaves `Items` unchanged; otherwise removes the first occurrence, with no change when the message is absent |
| NotificationMessageContainer.SetManager | Enterwell.Clients.Wpf.Notifications/Controls/NotificationMessageContainer.cs:37-68 | no effect when the value is unchanged. Otherwise the old manager stops notifying this container and the new one (if any) starts; setting null only detaches |
| NotificationMessageBuilder.CreateMessage | Enterwell.Clients.Wpf.Notifications/NotificationMessageBuilder.cs:33-36 | a new builder is bound to no manager and no message |
| NotificationMessageBuilder.SetHeader | Enterwell.Clients.Wpf.Notifications/NotificationMessageBuilder.cs:42-45 | the bound message's state becomes `WithHeader` of the old state; its buttons are unchanged |
| NotificationMessageBuilder.SetMessage | Enterwell.Clients.Wpf.Notifications/NotificationMessageBuilder.cs:51-54 | the bound message's state becomes `WithMessage` of the old state |
| NotificationMessageBuilder.SetBadge | Enterwell.Clients.Wpf.Notifications/NotificationMessageBuilder.cs:72-75 | the bound message's state becomes `WithBadgeText` of the old state |
| NotificationMessageBuilder.SetAccent | Enterwell.Clients.Wpf.Notifications/NotificationMessageBuilder.cs:81-84 | the bound message's state becomes `WithAccent` of the old state |
| NotificationMessageBuilder.SetBackground | Enterwell.Clients.Wpf.Notifications/NotificationMessageBuilder.cs:90-93 | the bound message's state becomes `WithBackground` of the old state |
| NotificationMessageBuilder.SetOverlay | Enterwell.Clients.Wpf.Notifications/NotificationMessageBuilder.cs:99-102 | the bound message's state becomes `WithOverlay` of the old state |
| NotificationMessageBuilder.SetForeground | Enterwell.Clients.Wpf.Notifications/NotificationMessageBuilder.cs:107-110 | the bound message's state becomes `WithForeground` of the old state |
| NotificationMessageBuilder.SetAnimates | Enterwell.Clients.Wpf.Notifications/NotificationMessageBuilder.cs:116-119 | the bound message's state becomes `WithAnimates` of the old state |
| NotificationMessageBuilder.SetAnimationDuration | Enterwell.Clients.Wpf.Notifications/NotificationMessageBuilder.cs:125-128 | the bound message's state becomes `WithAnimationDuration` of the old state |
| NotificationMessageBuilder.AddButton | Enterwell.Clients.Wpf.Notifications/NotificationMessageBuilder.cs:60-66 | a null button gives `ArgumentNullException("button")` and leaves the buttons unchanged, before the message is looked at. Any other button is appended last, with the earlier buttons and all other properties unchanged |
| NotificationMessageBuilder.Queue | Enterwell.Clients.Wpf.Notifications/NotificationMessageBuilder.cs:134-139 | calls `Manager.Queue(Message)` and promises all of that method's contract: the manager moves as `QueueStep` says; its factory and listener are unchanged; the listener's `Items` move as `Deliver` says; and a container in step stays in step. The call returns that same message, unless the listener threw, in which case the exception is returned |
| NotificationMessageBuilder.HasHeader | Enterwell.Clients.Wpf.Notifications/NotificationMessageBuilderLinq.cs:94-101 | `SetHeader`, then returns the same builder |
| NotificationMessageBuilder.HasMessage | Enterwell.Clients.Wpf.Notifications/NotificationMessageBuilderLinq.cs:109-116 | `SetMessage`, then returns the same builder |
| NotificationMessageBuilder.HasBadge | Enterwell.Clients.Wpf.Notifications/NotificationMessageBuilderLinq.cs:79-86 | `SetBadge`, then returns the same builder |
| NotificationMessageBuilder.Accent | Enterwell.Clients.Wpf.Notifications/NotificationMessageBuilderLinq.cs:48-55 | `SetAccent`, then returns the same builder |
| NotificationMessageBuilder.Background | Enterwell.Clients.Wpf.Notifications/NotificationMessageBuilderLinq.cs:17-24 | `SetBackground`, then returns the same builder |
| NotificationMessageBuilder.WithOverlay | Enterwell.Clients.Wpf.Notifications/NotificationMessageBuilderLinq.cs:207-214 | `SetOverlay`, then returns the same builder |
| NotificationMessageBuilder.WithButton | Enterwell.Clients.Wpf.Notifications/NotificationMessageBuilderLinq.cs:167-179 | appends one new factory button with the given content and callback after the unchanged earlier buttons, then returns the same builder |
| DismissNotificationMessage.Create | Enterwell.Clients.Wpf.Notifications/NotificationMessageBuilder.cs:173-176 | a null builder gives `ArgumentNullException("builder")`; otherwise the wrapper holds that builder |
| DismissNotificationMessage.WithButton | Enterwell.Clients.Wpf.Notifications/NotificationMessageBuilderLinq.cs:152-158 | appends one button whose callback is `DismissBefore(builder, callback)`, and returns the underlying builder; the new button is a fresh object |
| CreateMessage | Enterwell.Clients.Wpf.Notifications/NotificationMessageBuilderLinq.cs:123-131 | a new builder whose manager is the given one. Its message is a new factory message in the default state |
| Dismiss | Enterwell.Clients.Wpf.Notifications/NotificationMessageBuilderLinq.cs:139-143 | the wrapper around the builder, or `ArgumentNullException` for a null builder |
| DismissBefore | Enterwell.Clients.Wpf.Notifications/NotificationMessageBuilderLinq.cs:190-199 | the dismiss callback captures the builder and the application callback (its behaviour is `Click`) |
| Click | Enterwell.Clients.Wpf.Notifications/NotificationMessageBuilderLinq.cs:194-198 | a dismiss callback first dismisses the builder's message, using its manager and message as they are at click time. Then it runs the application callback, and a null callback only dismisses. The callback is skipped if the dismissal threw. The manager's listener and factory are unchanged, the listener's `Items` move as `Deliver` says, and a container in step stays in step. A plain callback just runs |
| Call | Enterwell.Clients.Wpf.Notifications/NotificationMessageManager.cs:38-70 | one manager call on a manager whose container is in step: the manager moves as `Perform` says, the container stays in step, and the call completes normally |
| AttachedContainerMirrors | Enterwell.Clients.Wpf.Notifications/Controls/NotificationMessageContainer.cs:37-98 | a container attached to a fresh manager, after any sequence of `Queue`/`Dismiss` calls: the manager is where `Run` says, and `Items` equals the manager's list |
| BuilderQueueTwice | Enterwell.Clients.Wpf.Notifications/NotificationMessageBuilder.cs:134-139 | `Queue()` twice on one builder leaves the manager as one `Queue()` does: one entry for the message, and at most one `Queued` event. The factory, the listener and its `Manager` and `ItemsSource` are unchanged, the listener's `Items` move as `Deliver` says for one `Queue()`, and a container in step stays in step. When it returns a message, that is the builder's message |
| UniqueCount | Enterwell.Clients.Wpf.Notifications/NotificationMessageManager.cs:40-43 | a member of a duplicate-free list occurs in it exactly once |
| InfoBuilder | Enterwell.Clients.Wpf.Notifications.Sample/MainWindow.xaml.cs:64-69 | the sample's "Info" chain: the badge and message are visible, the header is collapsed, and both accents are the accent colour propagated from `Accent` |
| AddInfoButtons | Enterwell.Clients.Wpf.Notifications.Sample/MainWindow.xaml.cs:70-72 | three `Dismiss().WithButton` calls add three dismiss buttons bound to the builder, in order |
| QueueFresh | Enterwell.Clients.Wpf.Notifications/NotificationMessageBuilder.cs:134-139 | `Queue()` of a builder whose message is not yet queued, with no items-source listener: it returns that message, appends it once at the end of the list with one `Queued` event, leaves the factory, the listener and its `Manager` and `ItemsSource` unchanged, and keeps a container in step |
| InfoMessage | Enterwell.Clients.Wpf.Notifications.Sample/MainWindow.xaml.cs:64-73 | the whole "Info" message: the appearance above (the header is collapsed), three dismiss buttons, queued once at the end of the list, with one `Queued` event. The factory, the listener and its `Manager` and `ItemsSource` are unchanged, and a container in step stays in step |
| ClickWhileQueued | Enterwell.Clients.Wpf.Notifications/NotificationMessageBuilderLinq.cs:194-198 | a dismiss button of a queued message raises one `Dismissed` event and then runs the application callback; the message is gone. The listener and its `Manager` and `ItemsSource` are unchanged, and a container in step stays in step |
| ClickAfterDismissed | Enterwell.Clients.Wpf.Notifications/NotificationMessageManager.cs:64-65 | a dismiss button of a message that is no longer queued raises nothing and leaves the listener, its `Manager`, `ItemsSource` and `Items` as they were; only the application callback runs |
| ClickTwoDismissButtons | Enterwell.Clients.Wpf.Notifications/NotificationMessageBuilderLinq.cs:196 | clicking two dismiss buttons of one queued message, in turn, raises exactly one `Dismissed` event. The message is absent afterwards, both application callbacks run in click order. The listener and its `Manager` and `ItemsSource` are unchanged, and a container in step stays in step |
| InfoMessageMirrored | Enterwell.Clients.Wpf.Notifications.Sample/MainWindow.xaml.cs:64-73 | with the sample window's container attached and in step, the "Info" message keeps it in step and is appended to its `Items` |
| ClicksMirrored | Enterwell.Clients.Wpf.Notifications/NotificationMessageBuilderLinq.cs:194-198 | with a container attached and in step, two dismiss clicks keep it in step. The message leaves its `Items`, and every other item stays in its order (`Items` becomes `RemoveFirst` of the old `Items`) |
| AnimationSettings | Enterwell.Clients.Wpf.Notifications/Controls/NotificationMessage.cs:154-170 | setting `Animates` and then `AnimationDuration` on a control leaves exactly those two values in its animation and nothing else changed; on a message without the animation capability, every property stays at its default |

## Left out

- `Delay` (both overloads): its timing (`Task.Delay` and `ContinueWith` on the UI scheduler) is asynchronous scheduling. A delayed action that dismisses is just a later `Dismiss` call, and the manager already makes that harmless (`Lifecycle.DismissUnqueued`, `ClickAfterDismissed`).
- Animation on a message without the capability: the builder's `Animates`/`AnimationDuration` accesses do not resolve against `INotificationMessage`. No behaviour of the code exists to model; the model's no-op is its own resolution.
- `Background(string)` and `Accent(string)`: these parse brushes with the WPF `BrushConverter`, which is foreign code. Brushes are opaque `Brush(id, colour)` values.
- Dependency-property registration, style keys and `AnimatableElement`: these are framework plumbing. Each property is a plain field, and its change callback is a branch of its setter.
- `AnimationDuration`: it is a `real` with no arithmetic on it; the C# `double` rounding is not modelled.
- Multicast events: each manager has at most one listening container, and attaching a new container displaces the previous one. Several containers on one manager, and handlers other than a container's, are not modelled.
- A listener that throws: an exception from the container's handler comes back from `Queue`/`Dismiss` as an `Outcome`. An exception of an application button callback is not modelled, because application callbacks are opaque `UserCode` values whose running is only recorded as an effect.
- Nested callbacks: a dismiss button's application callback is always such an opaque value, never another dismiss action.
- Null receivers: a null `Manager` or `Message` on a builder, when that member is dereferenced, would be a `NullReferenceException`. The model makes it a precondition instead (`requires message != null`, `requires manager != null`). The same holds for a null manager passed to `CreateMessage`.
- `NotificationMessageFactory`: its source is not part of this model. It is modelled as returning fresh, unaliased objects in their default state.
- `ContentLocation`, `INotificationMessage` and `INotificationMessageAnimation`: these only declare types. They give the record's fields and the optional animation capability; no core operation uses `ContentLocation`.
- `DefaultForeground`: the control's constructor creates a new `#DDDDDD` brush for every message. The model gives every message the same brush value `Brush(0, "#DDDDDD")`, so two messages' default foregrounds compare equal here although they are different objects in the library.
- `Items` and `ItemsSource`: `Items` holds only messages, and `ItemsSource` is only "set or not" (`usesItemsSource`). The null `Items` case of `Items?.Add` cannot arise for an `ItemsControl`, so it is not modelled.
- Both sample windows: only the "Info" chain of Enterwell.Clients.Wpf.Notifications.Sample is replayed. The Net5 sample calls members that are not part of this model.
