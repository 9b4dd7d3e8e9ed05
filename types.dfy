/** Values exchanged by the notification routing of the ntfy iOS app delegate:
    userInfo dictionaries, subscriptions, messages, actions, notification
    requests, the effects the delegate causes, and the collaborators whose
    code is not part of this model. */
module Notifications {

  datatype Option<+T> = None | Some(value: T) {
    /** Swift's `x ?? d`. */
    function GetOr(d: T): T {
      match this
      case Some(v) => v
      case None => d
    }
  }

  /** A value stored in a `[AnyHashable: Any]` userInfo dictionary: either a
      Swift `String` or something else (a number, a nested dictionary, ...),
      which `as? String` rejects. */
  datatype Value = Str(s: string) | NonString(description: string)

  /** A notification's userInfo dictionary; keys are modelled as strings. */
  type UserInfo = map<string, Value>

  /** `info[key] as? String ?? default`: the stored string if there is one,
      otherwise the default (also when the key holds a non-string value). */
  function StringOr(info: UserInfo, key: string, default: string): (r: string)
    ensures key in info && info[key].Str? ==> r == info[key].s
    ensures key !in info ==> r == default
    ensures key in info && !info[key].Str? ==> r == default
  {
    if key in info && info[key].Str? then info[key].s else default
  }

  /** A parsed URL (Foundation's `URL`); only its text is modelled. */
  datatype Url = Url(absoluteString: string)

  /** A subscription to a topic on a server. */
  datatype Subscription = Subscription(baseUrl: string, topic: string)

  /** A message fetched from the server; `message` is its body text and
      `rest` stands for every field the routing does not read (click URL,
      actions, topic, time, ...), which `toUserInfo` may still carry. */
  datatype Message = Message(id: string, title: Option<string>, message: Option<string>, rest: string)

  /** A user action attached to a message; `action` is its kind ("view",
      "http", or anything else the server sends) and `rest` stands for the
      fields the routing does not read (label, HTTP method, headers, body,
      ...), which travel with the action to the HTTP collaborator. */
  datatype Action = Action(id: string, action: string, url: Option<string>, rest: string)

  /** What the app hands to `UNUserNotificationCenter.add`. */
  datatype NotificationRequest = NotificationRequest(identifier: string, title: string, body: string, userInfo: UserInfo)

  /** The argument of a background-fetch completion handler. */
  datatype FetchResult = NoData | NewData

  /** The observable effects of the app delegate, in the order they happen. */
  datatype Effect =
    | Polled(subscription: Subscription)      // SubscriptionManager.poll(subscription) started
    | Show(request: NotificationRequest)      // UNUserNotificationCenter.add(request)
    | Open(url: Url)                          // UIApplication.shared.open(url)
    | Http(action: Action)                    // Actions.shared.http(action)
    | FetchCompleted(result: FetchResult)     // background-fetch completion handler called
    | TapCompleted                            // notification-response completion handler called

  predicate IsCompletion(e: Effect) {
    e.FetchCompleted? || e.TapCompleted?
  }

  /** The collaborators whose code is not part of this model, as given
      functions: `URL(string:)`, the global `topicUrl(baseUrl:topic:)`,
      `Message.toUserInfo()`, `Actions.shared.parse` and `Config.appBaseUrl`.
      What `SubscriptionManager.poll` delivers is given per background push,
      as is what the store holds. */
  datatype Env = Env(
    parseUrl: string -> Option<Url>,
    topicUrl: (string, string) -> string,
    toUserInfo: Message -> UserInfo,
    parseActions: string -> Option<seq<Action>>,
    appBaseUrl: string)

  /** The one fact about Foundation the model relies on, and only where a
      lemma says so: `URL(string: "")` is nil. */
  predicate FoundationFacts(env: Env) {
    env.parseUrl("") == None
  }

  /** Number of completion-handler calls in an effect trace. */
  function Completions(effects: seq<Effect>): nat {
    if effects == [] then 0
    else Completions(effects[..|effects| - 1]) + (if IsCompletion(effects[|effects| - 1]) then 1 else 0)
  }

  lemma {:induction false} CompletionsAppend(a: seq<Effect>, b: seq<Effect>)
    ensures Completions(a + b) == Completions(a) + Completions(b)
    decreases |b|
  {
    if b == [] {
      assert a + b == a;
    } else {
      var n := |b| - 1;
      assert (a + b)[..|a + b| - 1] == a + b[..n];
      CompletionsAppend(a, b[..n]);
    }
  }
}
