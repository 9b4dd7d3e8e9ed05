# ntfy iOS notification routing, modelled in Dafny

This project models the notification routing of the ntfy iOS app's
`AppDelegate` (`ntfy/App/AppDelegate.swift`):

- **Poll trigger.** A silent background push whose `topic` is the reserved
  `~poll` topic makes the app poll every stored subscription and show each
  returned message as a local notification. Any other push is answered with
  `.noData`.
- **Notification builder.** `showNotification` turns a (subscription,
  message) pair into a notification request. The request's identifier is the
  message id. Its title and body default to `""`. Its userInfo is the
  message's userInfo with `base_url` and `topic` taken from the subscription.
- **Tap router.** When a notification or one of its buttons is tapped,
  `userNotificationCenter(_:didReceive:)` reads the fields it needs from
  userInfo, falling back to defaults for missing ones. It updates
  `selectedBaseUrl`, runs the tapped action or opens the click URL, and calls
  its completion handler.
- **Action dispatch.** `handle(action:)` opens the URL of a `view` action,
  hands an `http` action to the HTTP collaborator, and ignores other kinds.

Files:

- `types.dfy` (module `Notifications`): userInfo values, subscriptions,
  messages, actions, requests, and the effect trace. It also holds `Env`,
  which bundles the collaborators whose code is not part of this model as
  given functions: `URL(string:)`, `topicUrl(baseUrl:topic:)`,
  `Message.toUserInfo()`, `Actions.shared.parse` and `Config.appBaseUrl`.
  What the store holds and what each poll delivers are parameters of each
  background push, so two pushes can see different messages.
- `routing.dfy` (module `Routing`): every handler's behaviour as a function
  from its inputs to the effects it causes, plus the lemmas about those
  functions.
- `app_delegate.dfy` (module `App`): class `AppDelegate`. It has the
  `selectedBaseUrl` field and a `trace` of effects. Its methods are written
  as the source writes them: a loop over subscriptions, a loop over each
  poll's messages, userInfo built in place, and a mutable notification
  content object. Each method is proved to append exactly the effects the
  matching `Routing` function describes.

Effects are `Polled(subscription)` (a poll started), `Show(request)`
(`UNUserNotificationCenter.add`), `Open(url)` (`UIApplication.shared.open`),
`Http(action)` (`Actions.shared.http`), `FetchCompleted(result)` and
`TapCompleted` (the two completion handlers).

Points where the code's behaviour may surprise a reader:

- The code calls `completionHandler(.newData)` right after starting the
  polls. It does not wait for them.
- The tap router has no failure path for corrupt metadata. Every missing
  field falls back to a default: `Config.appBaseUrl`, `""` or `"[]"`.
- A `view` action's URL is parsed as it is. It is not resolved against the
  subscription's base URL.
- Action kinds other than `view` and `http` are ignored by
  `handle(action:)`. Whether `parse` drops them is not modelled;
  `parseActions` may return any kind.
- The click URL is opened whenever `URL(string:)` accepts it. The code
  applies no separate "non-empty" test.

## Model

| member | source | states |
|---|---|---|
| `Notifications.StringOr` | ntfy/App/AppDelegate.swift:46 | `userInfo[key] as? String ?? default`: the stored string when the key holds a string; the default when the key is missing or holds a non-string |
| `App.AppDelegate.constructor` | ntfy/App/AppDelegate.swift:13 | `selectedBaseUrl` starts as nil and no effect has happened |
| `App.MutableContent.constructor` | ntfy/App/AppDelegate.swift:83-87 | a fresh `UNMutableNotificationContent` has an empty title, body and userInfo until `ShowNotification` fills them in |
| `App.AppDelegate.DidReceiveRemoteNotification` | ntfy/App/AppDelegate.swift:42-63 | the gate plus the nested loops append exactly `PollEffects` to the trace |
| `App.AppDelegate.PollStored` | ntfy/App/AppDelegate.swift:55-61 | in the model, where each poll's callback runs before the next poll starts, the loop over the stored subscriptions appends exactly `Dispatch` of them, in order |
| `App.AppDelegate.PollOne` | ntfy/App/AppDelegate.swift:56-60 | in the model, where each poll's callback runs before the next poll starts, one iteration starts the subscription's poll and then shows what it delivers |
| `App.AppDelegate.ShowPolled` | ntfy/App/AppDelegate.swift:57-59 | the poll callback shows every returned message, in the returned order |
| `App.AppDelegate.ShowNotification` | ntfy/App/AppDelegate.swift:78-95 | adds exactly one request, the one `BuildRequest` describes |
| `App.AppDelegate.DidReceive` | ntfy/App/AppDelegate.swift:111-140 | the new `selectedBaseUrl` is `SelectedAfterTap` of the old one; the trace grows by exactly `TapEffects` |
| `App.AppDelegate.Handle` | ntfy/App/AppDelegate.swift:147-161 | the trace grows by exactly `ActionEffects` |
| `App.AppDelegate.OpenUrl` | ntfy/App/AppDelegate.swift:163-166 | opening a URL is one `Open` effect |
| `Routing.MergedUserInfo` | ntfy/App/AppDelegate.swift:79-81 | the keys are the message's keys plus `base_url` and `topic`; those two hold the subscription's values; every other key keeps the message's value |
| `Routing.BuildRequest` | ntfy/App/AppDelegate.swift:83-89 | the identifier is the message id; title and body are the message's fields, or `""` when absent; userInfo is the merged dictionary |
| `Routing.SameIdSameIdentifier` | ntfy/App/AppDelegate.swift:89 | two messages with the same id give requests with the same identifier, whatever the subscription or content |
| `Routing.Shows` | ntfy/App/AppDelegate.swift:57-59 | the notifications of one poll callback: exactly one effect per returned message, and every one is a `Show` |
| `Routing.Block` | ntfy/App/AppDelegate.swift:55-60 | the effects of one subscription: first its poll starts, then one `Show` per message that poll delivers, and nothing else |
| `Routing.Dispatch` | ntfy/App/AppDelegate.swift:55-61 | in the model, where each poll's callback runs before the next poll starts, the effects of the `forEach` over the stored subscriptions are each subscription's `Block`, in store order; its properties are the lemmas `DispatchAppend`, `SubscriptionBlock` and `DispatchNoCompletion` |
| `Routing.PollEffects` | ntfy/App/AppDelegate.swift:46-62 | the whole background handler: in the model, where each poll's callback runs before the next poll starts, its last effect is a fetch completion; that completion is `.newData` if and only if the topic read from userInfo is `~poll` |
| `Routing.OnlyPollTopicPolls` | ntfy/App/AppDelegate.swift:10-50 | the reserved topic is the literal `~poll`; a push causes anything besides the completion only when its userInfo holds the string `~poll` under `topic` |
| `Routing.ShowsAt` | ntfy/App/AppDelegate.swift:57-59 | a subscription's Show effects are one per returned message, and the k-th one is the request for the k-th message |
| `Routing.DispatchAppend` | ntfy/App/AppDelegate.swift:55-61 | in the model, where each poll's callback runs before the next poll starts, dispatching a concatenation of subscription lists gives the concatenation of their effects |
| `Routing.SubscriptionBlock` | ntfy/App/AppDelegate.swift:55-61 | in the model, where each poll's callback runs before the next poll starts, each stored subscription gives one contiguous block: its poll, then its messages' notifications, placed between the blocks of the subscriptions before and after it |
| `Routing.PollCompletesOnce` | ntfy/App/AppDelegate.swift:46-62 | the background handler calls its completion handler exactly once, with `.newData` if and only if the topic is `~poll`; in the model, where each poll's callback runs before the next poll starts, the completion is also the last effect |
| `Routing.PollGateClosed` | ntfy/App/AppDelegate.swift:46-50 | a missing, non-string or non-`~poll` topic gives only `.noData`: no poll and no notification |
| `Routing.PollGateOpen` | ntfy/App/AppDelegate.swift:53-62 | for the `~poll` topic the stored subscriptions are dispatched, then `.newData` is reported (in the model, where each poll's callback runs before the next poll starts); a nil store dispatches nothing and still reports `.newData` |
| `Routing.FirstWithId` | ntfy/App/AppDelegate.swift:144 | the index of the first action with the id; no earlier action has that id |
| `Routing.DispatchNoCompletion` | ntfy/App/AppDelegate.swift:55-61 | the dispatch loop itself never calls the completion handler |
| `Routing.FindAction` | ntfy/App/AppDelegate.swift:142-145 | nil when the list is nil or no action has the id; otherwise the first action in list order whose id matches |
| `Routing.FindActionUnique` | ntfy/App/AppDelegate.swift:142-145 | when ids are unique, the action found is the one that carries the tapped id |
| `Routing.ActionEffects` | ntfy/App/AppDelegate.swift:149-160 | what `handle(action:)` does: every effect is an `Open` for a `view` action or the very action handed to `Http` for an `http` action; other kinds cause nothing |
| `Routing.ActionKinds` | ntfy/App/AppDelegate.swift:147-161 | at most one effect and no completion; `view` opens exactly when its URL parses; `http` gives one `Http(action)`; any other kind does nothing |
| `Routing.ViewWithoutUrl` | ntfy/App/AppDelegate.swift:151-155 | a `view` action without a URL opens nothing |
| `Routing.ReadTapFields` | ntfy/App/AppDelegate.swift:121-124 | a string stored under `base_url`, `topic` or `actions` is read as it is, and a string under `click` is parsed with `URL(string:)` |
| `Routing.TappedAction` | ntfy/App/AppDelegate.swift:125 | an action found for a tap carries the tapped identifier and is one of the actions parsed from the `actions` field |
| `Routing.TapDefaults` | ntfy/App/AppDelegate.swift:121-124 | a `base_url`, `topic` or `actions` that is missing or not a string falls back to `Config.appBaseUrl`, `""` or `"[]"`; a missing or non-string click URL is parsed from `""` |
| `Routing.SelectedAfterTap` | ntfy/App/AppDelegate.swift:127-130 | with a non-empty topic, `selectedBaseUrl` becomes `topicUrl(baseUrl, topic)`; with an empty topic it is unchanged; the tapped action plays no part |
| `Routing.TapEffects` | ntfy/App/AppDelegate.swift:132-139 | a tap always ends with its completion handler, and every earlier effect is opening a URL or sending an HTTP action |
| `Routing.ShownThenTapped` | ntfy/App/AppDelegate.swift:75-81 | tapping a notification that `showNotification` built reads back the subscription's `base_url` and `topic` (lines 121-122), so it selects `topicUrl` of that subscription when the topic is non-empty (lines 128-130); `actions` and `click` are read from the message's own userInfo |
| `Routing.TapCompletesOnce` | ntfy/App/AppDelegate.swift:132-139 | a tap calls its completion handler exactly once, as its last effect, after at most one other effect |
| `Routing.TapActionPriority` | ntfy/App/AppDelegate.swift:133-134 | when an action is found, exactly its effects happen and the click URL is not opened |
| `Routing.TapClickFallback` | ntfy/App/AppDelegate.swift:135-137 | with no action found, the click URL is opened if and only if it parses; otherwise nothing happens |
| `Routing.TapWithoutClickIsNoop` | ntfy/App/AppDelegate.swift:123-137 | no `click` key and no matching action: the tap only completes |
| `Routing.TapEffectOrigin` | ntfy/App/AppDelegate.swift:125-137 | every URL opened comes from a found `view` action or, when no action was found, from the click URL; every HTTP request comes from a found `http` action |
| `Routing.TwoActionExample` | ntfy/App/AppDelegate.swift:125-137 | with actions `a1` (view) and `a2` (http), tapping `a2` sends only the HTTP action; tapping the notification itself opens the click URL |

## Left out

- Firebase Messaging setup, the topic subscription and the FCM token callback (lines 29-35, 169-176): vendor SDK glue.
- APNs device-token formatting and the registration callbacks (lines 65-73): the token only feeds a log line and Firebase.
- Notification authorization, the `willPresent` presentation options and the error callback of `add` (lines 19-26, 90-94, 100-108): OS API. `add` is modelled only as a `Show` effect.
- `content.sound = .default` (line 86): a constant presentation setting with no routing behaviour.
- `UIApplication.shared.open` (lines 163-166): an opaque `Open` effect.
- The bodies of `SubscriptionManager.poll`, `Store.getSubscriptions`, `Actions.shared.parse`/`http`, `Message.toUserInfo`, `topicUrl` and `URL(string:)`: they are not part of this model. Most are given functions in `Env`. The store's answer and what each poll delivers are parameters of each background push. A failed poll is a poll that returns no messages.
- The only fact assumed about them is that `URL(string: "")` is nil (`FoundationFacts`). Only `ViewWithoutUrl` and `TapWithoutClickIsNoop` use it.
- Routing.FindAction: ids are compared by code point. Swift's `==` on `String` also treats canonically equivalent strings as equal (`"\u{E9}"` and `"e\u{301}"`), so an action Swift finds that way is not found here.
- Routing.FirstWithId: ids are compared by code point, not by Swift's canonical equivalence, for the same reason as `Routing.FindAction`.
- Routing.SubscriptionBlock: the contiguous block per subscription holds only in the model. In the app every poll starts before its callback runs, so notifications of different subscriptions can interleave.
- Routing.PollCompletesOnce: "exactly once" holds in the app as well. "Completion is the last effect" holds only in the model. In the app, notifications can be shown after `completionHandler(.newData)`.
- App.AppDelegate.DidReceiveRemoteNotification: the poll callbacks run asynchronously in the app, so their notifications may come after the `.newData` completion. The model runs each callback at once, in subscription order, and adds no join the code lacks.
- App.AppDelegate.PollStored: the order (each poll's notifications before the next poll starts) holds only in the model. In the app, `poll` returns before its callback runs, so polls and notifications of different subscriptions can interleave.
- App.AppDelegate.PollOne: the notifications follow the poll at once only in the model. In the app they come later, from the poll's callback.
- Routing.Dispatch: "each subscription's block, in store order" is the model's order only. In the app the `forEach` only starts the polls, and their callbacks' notifications come later and can interleave.
- Routing.PollEffects: "the completion is the last effect" holds only in the model. In the app line 62 can run before any callback has shown a notification. "`.newData` if and only if `~poll`" holds in the app too.
- Routing.DispatchAppend: the concatenation describes the model's sequential order. It is not a claim about the app's interleaving.
- Routing.PollGateOpen: the order "dispatch, then `.newData`" holds only in the model. In the app `.newData` can precede the notifications.
- Logging (`Log.d/e/w`): no behaviour. A `view` action with an unparsable URL and an unknown action kind therefore cause no effect.
- Message and Action name only the fields the routing reads. Every other field (an action's label, HTTP method, headers and body; a message's click URL, actions, topic and time) is folded into one opaque `rest` string. `rest` reaches `toUserInfo` and `Http` unchanged, but its structure is not modelled.
- The metadata round trip (`toUserInfo` and back) and action-list parsing are done by code that is not part of this model.
- ntfy-ios/Views/SubscriptionRow.swift: SwiftUI layout. Its only logic is a plural suffix, and it relies on subscription methods that are not part of this model.
