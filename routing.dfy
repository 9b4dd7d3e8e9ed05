/** The decisions of the app delegate as functions of their inputs: the
    poll-trigger gate and dispatch, the notification builder, the tap router,
    the first-match action lookup and the action-kind switch. The methods of
    class App.AppDelegate are proved to produce exactly these effects. */
module Routing {
  import opened Notifications

  /** The reserved topic of the silent push that triggers polling. */
  const PollTimerTopic: string := "~poll"

  /** The identifier iOS reports when the notification itself, not one of
      its buttons, was tapped. */
  const DefaultActionIdentifier: string := "com.apple.UNNotificationDefaultActionIdentifier"

  // ---------------------------------------------------------------------
  // Notification builder

  /** The message's userInfo with `base_url` and `topic` set from the
      subscription. */
  function MergedUserInfo(env: Env, subscription: Subscription, message: Message): (info: UserInfo)
    ensures info.Keys == env.toUserInfo(message).Keys + {"base_url", "topic"}
    ensures info["base_url"] == Str(subscription.baseUrl)
    ensures info["topic"] == Str(subscription.topic)
    ensures forall k :: k in env.toUserInfo(message) && k != "base_url" && k != "topic" ==>
      info[k] == env.toUserInfo(message)[k]
  {
    env.toUserInfo(message)["base_url" := Str(subscription.baseUrl)]["topic" := Str(subscription.topic)]
  }

  /** The request `showNotification` adds for a message of a subscription. */
  function BuildRequest(env: Env, subscription: Subscription, message: Message): (r: NotificationRequest)
    ensures r.identifier == message.id
    ensures message.title.Some? ==> r.title == message.title.value
    ensures message.title.None? ==> r.title == ""
    ensures message.message.Some? ==> r.body == message.message.value
    ensures message.message.None? ==> r.body == ""
    ensures r.userInfo == MergedUserInfo(env, subscription, message)
  {
    NotificationRequest(message.id, message.title.GetOr(""), message.message.GetOr(""),
                        MergedUserInfo(env, subscription, message))
  }

  /** Re-showing a message with the same id (from any subscription, with any
      other content) yields a request with the same identifier, so the OS
      replaces the visible notification instead of adding a second one. */
  lemma SameIdSameIdentifier(env: Env, s1: Subscription, m1: Message, s2: Subscription, m2: Message)
    requires m1.id == m2.id
    ensures BuildRequest(env, s1, m1).identifier == BuildRequest(env, s2, m2).identifier
  {
  }

  // ---------------------------------------------------------------------
  // Poll gate and dispatch

  /** The Show effects for the messages of one subscription, in order. */
  function Shows(env: Env, subscription: Subscription, messages: seq<Message>): (r: seq<Effect>)
    ensures |r| == |messages|
    ensures forall i :: 0 <= i < |r| ==> r[i].Show?
  {
    if messages == [] then []
    else Shows(env, subscription, messages[..|messages| - 1])
         + [Show(BuildRequest(env, subscription, messages[|messages| - 1]))]
  }

  /** The effects for one subscription: the poll starts, then every message
      it returns is shown. */
  function Block(env: Env, poll: Subscription -> seq<Message>, subscription: Subscription): (r: seq<Effect>)
    ensures |r| == 1 + |poll(subscription)|
    ensures r[0] == Polled(subscription) && forall i :: 1 <= i < |r| ==> r[i].Show?
  {
    [Polled(subscription)] + Shows(env, subscription, poll(subscription))
  }

  /** The effects of running `step` on each subscription in turn. */
  function ForEach(step: Subscription -> seq<Effect>, subscriptions: seq<Subscription>): seq<Effect> {
    if subscriptions == [] then []
    else ForEach(step, subscriptions[..|subscriptions| - 1]) + step(subscriptions[|subscriptions| - 1])
  }

  /** The effects of the dispatch loop over the stored subscriptions. */
  function Dispatch(env: Env, poll: Subscription -> seq<Message>, subscriptions: seq<Subscription>): seq<Effect> {
    ForEach(s => Block(env, poll, s), subscriptions)
  }

  /** Every effect of the background-notification handler, given its
      userInfo, what `Store.getSubscriptions()` returns, and the messages
      `SubscriptionManager.poll` delivers for each subscription on this push. */
  function PollEffects(env: Env, userInfo: UserInfo, stored: Option<seq<Subscription>>, poll: Subscription -> seq<Message>): (r: seq<Effect>)
    ensures r != [] && r[|r| - 1].FetchCompleted?
    ensures r[|r| - 1] == FetchCompleted(NewData) <==> StringOr(userInfo, "topic", "") == PollTimerTopic
  {
    if StringOr(userInfo, "topic", "") != PollTimerTopic then [FetchCompleted(NoData)]
    else (if stored.Some? then Dispatch(env, poll, stored.value) else []) + [FetchCompleted(NewData)]
  }

  /** The k-th Show of a subscription's block is the request for its k-th
      message: exactly one notification per message, in the order returned. */
  lemma {:induction false} ShowsAt(env: Env, subscription: Subscription, messages: seq<Message>, k: nat)
    requires k < |messages|
    ensures |Shows(env, subscription, messages)| == |messages|
    ensures Shows(env, subscription, messages)[k] == Show(BuildRequest(env, subscription, messages[k]))
  {
    var n := |messages| - 1;
    if k < n {
      ShowsAt(env, subscription, messages[..n], k);
    }
  }

  lemma ForEachSnoc(step: Subscription -> seq<Effect>, subscriptions: seq<Subscription>, s: Subscription)
    ensures ForEach(step, subscriptions + [s]) == ForEach(step, subscriptions) + step(s)
  {
    var t := subscriptions + [s];
    assert t[..|t| - 1] == subscriptions;
  }

  lemma {:induction false} ForEachAppend(step: Subscription -> seq<Effect>, a: seq<Subscription>, b: seq<Subscription>)
    ensures ForEach(step, a + b) == ForEach(step, a) + ForEach(step, b)
    decreases |b|
  {
    if b == [] {
      assert a + b == a;
    } else {
      var front, last := b[..|b| - 1], b[|b| - 1];
      assert b == front + [last];
      assert a + b == (a + front) + [last];
      ForEachSnoc(step, a + front, last);
      ForEachAppend(step, a, front);
      ForEachSnoc(step, front, last);
    }
  }

  /** Dispatching one more subscription appends its block. */
  lemma DispatchSnoc(env: Env, poll: Subscription -> seq<Message>, subscriptions: seq<Subscription>, s: Subscription)
    ensures Dispatch(env, poll, subscriptions + [s]) == Dispatch(env, poll, subscriptions) + Block(env, poll, s)
  {
    ForEachSnoc(s => Block(env, poll, s), subscriptions, s);
  }

  /** Dispatching one more element of a list extends the dispatch of its
      prefix by that element's block. */
  lemma DispatchPrefix(env: Env, poll: Subscription -> seq<Message>, subscriptions: seq<Subscription>, i: nat)
    requires i < |subscriptions|
    ensures Dispatch(env, poll, subscriptions[..i + 1]) == Dispatch(env, poll, subscriptions[..i]) + Block(env, poll, subscriptions[i])
  {
    assert subscriptions[..i + 1] == subscriptions[..i] + [subscriptions[i]];
    DispatchSnoc(env, poll, subscriptions[..i], subscriptions[i]);
  }

  /** Dispatching over a concatenation is dispatching over each part in
      turn: subscriptions are handled one after another. */
  lemma DispatchAppend(env: Env, poll: Subscription -> seq<Message>, a: seq<Subscription>, b: seq<Subscription>)
    ensures Dispatch(env, poll, a + b) == Dispatch(env, poll, a) + Dispatch(env, poll, b)
  {
    ForEachAppend(s => Block(env, poll, s), a, b);
  }

  /** Each stored subscription contributes one contiguous block: its poll
      followed by its messages' notifications, between the blocks of the
      subscriptions before and after it. */
  lemma SubscriptionBlock(env: Env, poll: Subscription -> seq<Message>, subscriptions: seq<Subscription>, i: nat)
    requires i < |subscriptions|
    ensures Dispatch(env, poll, subscriptions)
         == Dispatch(env, poll, subscriptions[..i]) + Block(env, poll, subscriptions[i]) + Dispatch(env, poll, subscriptions[i + 1..])
  {
    assert subscriptions == subscriptions[..i] + [subscriptions[i]] + subscriptions[i + 1..];
    DispatchAppend(env, poll, subscriptions[..i] + [subscriptions[i]], subscriptions[i + 1..]);
    DispatchAppend(env, poll, subscriptions[..i], [subscriptions[i]]);
    assert [subscriptions[i]][..0] == [];
  }

  lemma {:induction false} ShowsNoCompletion(env: Env, subscription: Subscription, messages: seq<Message>)
    ensures Completions(Shows(env, subscription, messages)) == 0
    decreases |messages|
  {
    if messages != [] {
      var n := |messages| - 1;
      ShowsNoCompletion(env, subscription, messages[..n]);
      CompletionsAppend(Shows(env, subscription, messages[..n]), [Show(BuildRequest(env, subscription, messages[n]))]);
      assert [Show(BuildRequest(env, subscription, messages[n]))][..0] == [];
    }
  }

  /** The dispatch loop itself never calls the completion handler. */
  lemma {:induction false} DispatchNoCompletion(env: Env, poll: Subscription -> seq<Message>, subscriptions: seq<Subscription>)
    ensures Completions(Dispatch(env, poll, subscriptions)) == 0
    decreases |subscriptions|
  {
    if subscriptions != [] {
      var n := |subscriptions| - 1;
      var s := subscriptions[n];
      DispatchNoCompletion(env, poll, subscriptions[..n]);
      ShowsNoCompletion(env, s, poll(s));
      CompletionsAppend([Polled(s)], Shows(env, s, poll(s)));
      assert [Polled(s)][..0] == [];
      CompletionsAppend(Dispatch(env, poll, subscriptions[..n]), Block(env, poll, s));
    }
  }

  /** The background handler calls its completion handler exactly once, as
      its last effect, with `.newData` exactly when the topic is "~poll"
      (even when no subscriptions are stored). */
  lemma PollCompletesOnce(env: Env, userInfo: UserInfo, stored: Option<seq<Subscription>>, poll: Subscription -> seq<Message>)
    ensures var e := PollEffects(env, userInfo, stored, poll);
      && Completions(e) == 1
      && e[|e| - 1].FetchCompleted?
      && (e[|e| - 1].result == NewData <==> StringOr(userInfo, "topic", "") == PollTimerTopic)
  {
    if StringOr(userInfo, "topic", "") == PollTimerTopic {
      var d := if stored.Some? then Dispatch(env, poll, stored.value) else [];
      if stored.Some? {
        DispatchNoCompletion(env, poll, stored.value);
      }
      CompletionsAppend(d, [FetchCompleted(NewData)]);
      assert [FetchCompleted(NewData)][..0] == [];
    } else {
      assert [FetchCompleted(NoData)][..0] == [];
    }
  }

  /** A background notification whose topic is missing, not a string, or
      not "~poll" only completes with `.noData`: no poll, no notification. */
  lemma PollGateClosed(env: Env, userInfo: UserInfo, stored: Option<seq<Subscription>>, poll: Subscription -> seq<Message>)
    requires "topic" !in userInfo || !userInfo["topic"].Str? || userInfo["topic"].s != PollTimerTopic
    ensures PollEffects(env, userInfo, stored, poll) == [FetchCompleted(NoData)]
  {
  }

  /** Only a push whose topic is the literal "~poll" starts any poll or
      shows any notification. */
  lemma OnlyPollTopicPolls(env: Env, userInfo: UserInfo, stored: Option<seq<Subscription>>, poll: Subscription -> seq<Message>)
    ensures |PollEffects(env, userInfo, stored, poll)| > 1 ==>
      "topic" in userInfo && userInfo["topic"] == Str("~poll")
  {
  }

  /** With the "~poll" topic, the stored subscriptions are dispatched in
      order and then `.newData` is reported; nil from the store dispatches
      nothing. */
  lemma PollGateOpen(env: Env, userInfo: UserInfo, stored: Option<seq<Subscription>>, poll: Subscription -> seq<Message>)
    requires "topic" in userInfo && userInfo["topic"] == Str(PollTimerTopic)
    ensures stored.None? ==> PollEffects(env, userInfo, stored, poll) == [FetchCompleted(NewData)]
    ensures stored.Some? ==> PollEffects(env, userInfo, stored, poll) == Dispatch(env, poll, stored.value) + [FetchCompleted(NewData)]
  {
  }

  // ---------------------------------------------------------------------
  // Action lookup and the action-kind switch

  /** Index of the first action whose id is `id`, or `|actions|` if none. */
  function FirstWithId(actions: seq<Action>, id: string): (k: nat)
    ensures k <= |actions|
    ensures forall j :: 0 <= j < k ==> actions[j].id != id
    ensures k < |actions| ==> actions[k].id == id
  {
    if actions == [] then 0
    else if actions[0].id == id then 0
    else 1 + FirstWithId(actions[1..], id)
  }

  /** `findAction`: the first action, in list order, whose id is the tapped
      identifier; nil when the parsed list is nil or nothing matches. */
  function FindAction(id: string, actions: Option<seq<Action>>): (r: Option<Action>)
    ensures actions.None? ==> r.None?
    ensures r.None? && actions.Some? ==> forall a :: a in actions.value ==> a.id != id
    ensures r.Some? ==>
              && actions.Some?
              && r.value.id == id
              && exists k :: 0 <= k < |actions.value| && actions.value[k] == r.value &&
                   forall j :: 0 <= j < k ==> actions.value[j].id != id
  {
    if actions.None? then None
    else
      var k := FirstWithId(actions.value, id);
      if k < |actions.value| then Some(actions.value[k]) else None
  }

  /** When ids are unique within the list, the found action is the one
      carrying the tapped id. */
  lemma FindActionUnique(id: string, actions: seq<Action>, k: nat)
    requires k < |actions| && actions[k].id == id
    requires forall i, j :: 0 <= i < j < |actions| ==> actions[i].id != actions[j].id
    ensures FindAction(id, Some(actions)) == Some(actions[k])
  {
  }

  /** The effects of `handle(action:)`. */
  function ActionEffects(env: Env, action: Action): (r: seq<Effect>)
    ensures forall e :: e in r ==> (e.Open? && action.action == "view") || (e == Http(action) && action.action == "http")
  {
    match action.action
    case "view" =>
      (match env.parseUrl(action.url.GetOr(""))
       case Some(url) => [Open(url)]
       case None => [])
    case "http" => [Http(action)]
    case _ => []
  }

  /** `handle(action:)` causes at most one effect and never a completion:
      "view" opens the action's URL exactly when it parses, "http" hands the
      action to the HTTP collaborator, any other kind does nothing. */
  lemma ActionKinds(env: Env, action: Action)
    ensures var e := ActionEffects(env, action);
      && |e| <= 1
      && Completions(e) == 0
      && (action.action == "view" ==> (e != [] <==> env.parseUrl(action.url.GetOr("")).Some?))
      && (action.action == "view" && e != [] ==> e == [Open(env.parseUrl(action.url.GetOr("")).value)])
      && (action.action == "http" ==> e == [Http(action)])
      && (action.action != "view" && action.action != "http" ==> e == [])
  {
  }

  /** A "view" action without a URL opens nothing, since `URL(string: "")`
      is nil. */
  lemma ViewWithoutUrl(env: Env, action: Action)
    requires FoundationFacts(env)
    requires action.action == "view" && action.url.None?
    ensures ActionEffects(env, action) == []
  {
  }

  // ---------------------------------------------------------------------
  // Tap router

  /** The fields the tap router reads from a notification's userInfo, with
      the fall-backs it uses when a field is missing. */
  datatype TapFields = TapFields(baseUrl: string, topic: string, clickUrl: Option<Url>, actions: string)

  function ReadTapFields(env: Env, userInfo: UserInfo): (f: TapFields)
    ensures "base_url" in userInfo && userInfo["base_url"].Str? ==> f.baseUrl == userInfo["base_url"].s
    ensures "topic" in userInfo && userInfo["topic"].Str? ==> f.topic == userInfo["topic"].s
    ensures "actions" in userInfo && userInfo["actions"].Str? ==> f.actions == userInfo["actions"].s
    ensures "click" in userInfo && userInfo["click"].Str? ==> f.clickUrl == env.parseUrl(userInfo["click"].s)
  {
    TapFields(
      StringOr(userInfo, "base_url", env.appBaseUrl),
      StringOr(userInfo, "topic", ""),
      env.parseUrl(StringOr(userInfo, "click", "")),
      StringOr(userInfo, "actions", "[]"))
  }

  /** Missing fields fall back to `Config.appBaseUrl`, "" and "[]"; a
      missing click URL parses as `URL(string: "")`. */
  lemma TapDefaults(env: Env, userInfo: UserInfo)
    ensures !("base_url" in userInfo && userInfo["base_url"].Str?) ==> ReadTapFields(env, userInfo).baseUrl == env.appBaseUrl
    ensures !("topic" in userInfo && userInfo["topic"].Str?) ==> ReadTapFields(env, userInfo).topic == ""
    ensures !("actions" in userInfo && userInfo["actions"].Str?) ==> ReadTapFields(env, userInfo).actions == "[]"
    ensures !("click" in userInfo && userInfo["click"].Str?) ==> ReadTapFields(env, userInfo).clickUrl == env.parseUrl("")
  {
  }

  /** The action the tap selects, if any. */
  function TappedAction(env: Env, userInfo: UserInfo, actionId: string): (r: Option<Action>)
    ensures r.Some? ==>
      && r.value.id == actionId
      && env.parseActions(ReadTapFields(env, userInfo).actions).Some?
      && r.value in env.parseActions(ReadTapFields(env, userInfo).actions).value
  {
    FindAction(actionId, env.parseActions(ReadTapFields(env, userInfo).actions))
  }

  /** `selectedBaseUrl` after a tap, given its value before. */
  function SelectedAfterTap(env: Env, userInfo: UserInfo, selected: Option<string>): (r: Option<string>)
    ensures var f := ReadTapFields(env, userInfo);
      && (f.topic != "" ==> r == Some(env.topicUrl(f.baseUrl, f.topic)))
      && (f.topic == "" ==> r == selected)
  {
    var f := ReadTapFields(env, userInfo);
    if f.topic != "" then Some(env.topicUrl(f.baseUrl, f.topic)) else selected
  }

  /** A notification shown by `showNotification` carries what the tap router
      needs: tapping it reads back the subscription's server and topic, so
      it selects that subscription; `actions` and `click` are read from the
      message's own userInfo. */
  lemma ShownThenTapped(env: Env, subscription: Subscription, message: Message, selected: Option<string>)
    ensures var f := ReadTapFields(env, BuildRequest(env, subscription, message).userInfo);
      && f.baseUrl == subscription.baseUrl
      && f.topic == subscription.topic
      && f.actions == StringOr(env.toUserInfo(message), "actions", "[]")
      && f.clickUrl == env.parseUrl(StringOr(env.toUserInfo(message), "click", ""))
    ensures SelectedAfterTap(env, BuildRequest(env, subscription, message).userInfo, selected)
         == if subscription.topic != "" then Some(env.topicUrl(subscription.baseUrl, subscription.topic)) else selected
  {
  }

  /** The effects of a tap on a notification, or on one of its buttons. */
  function TapEffects(env: Env, userInfo: UserInfo, actionId: string): (r: seq<Effect>)
    ensures r != [] && r[|r| - 1] == TapCompleted
    ensures forall e :: e in r[..|r| - 1] ==> e.Open? || e.Http?
  {
    var f := ReadTapFields(env, userInfo);
    (match TappedAction(env, userInfo, actionId)
     case Some(action) => ActionEffects(env, action)
     case None =>
       (match f.clickUrl
        case Some(url) => [Open(url)]
        case None => []))
    + [TapCompleted]
  }

  /** A tap calls its completion handler exactly once, last, after at most
      one other effect. */
  lemma TapCompletesOnce(env: Env, userInfo: UserInfo, actionId: string)
    ensures var e := TapEffects(env, userInfo, actionId);
      && Completions(e) == 1
      && e[|e| - 1] == TapCompleted
      && |e| <= 2
  {
    var e := TapEffects(env, userInfo, actionId);
    var before := e[..|e| - 1];
    assert e == before + [TapCompleted];
    match TappedAction(env, userInfo, actionId)
    case Some(action) =>
      ActionKinds(env, action);
      assert before == ActionEffects(env, action);
    case None =>
      if before != [] {
        assert before[..0] == [];
      }
    CompletionsAppend(before, [TapCompleted]);
    assert [TapCompleted][..0] == [];
  }

  /** An action found for the tapped identifier takes priority: it is
      handled and the click URL is not opened. */
  lemma TapActionPriority(env: Env, userInfo: UserInfo, actionId: string)
    requires TappedAction(env, userInfo, actionId).Some?
    ensures TapEffects(env, userInfo, actionId)
         == ActionEffects(env, TappedAction(env, userInfo, actionId).value) + [TapCompleted]
  {
  }

  /** Without an action for the tapped identifier, the click URL is opened
      exactly when it parses; otherwise the tap only completes. */
  lemma TapClickFallback(env: Env, userInfo: UserInfo, actionId: string)
    requires TappedAction(env, userInfo, actionId).None?
    ensures var click := ReadTapFields(env, userInfo).clickUrl;
      && (click.Some? ==> TapEffects(env, userInfo, actionId) == [Open(click.value), TapCompleted])
      && (click.None? ==> TapEffects(env, userInfo, actionId) == [TapCompleted])
  {
  }

  /** A notification without a click URL and without a matching action only
      completes. */
  lemma TapWithoutClickIsNoop(env: Env, userInfo: UserInfo, actionId: string)
    requires FoundationFacts(env)
    requires "click" !in userInfo
    requires TappedAction(env, userInfo, actionId).None?
    ensures TapEffects(env, userInfo, actionId) == [TapCompleted]
  {
  }

  /** Opening a URL on a tap comes either from a "view" action that was
      found, or from the click URL when no action was found; an HTTP request
      comes only from a found "http" action. */
  lemma TapEffectOrigin(env: Env, userInfo: UserInfo, actionId: string)
    ensures var e := TapEffects(env, userInfo, actionId);
      var a := TappedAction(env, userInfo, actionId);
      && (forall u :: Open(u) in e ==>
            (a.Some? && a.value.action == "view" && env.parseUrl(a.value.url.GetOr("")) == Some(u))
            || (a.None? && ReadTapFields(env, userInfo).clickUrl == Some(u)))
      && (forall b :: Http(b) in e ==> a == Some(b) && b.action == "http")
  {
  }

  /** Tapping the "http" button of a message carrying a "view" and an "http"
      action posts the HTTP action and navigates nowhere; tapping the
      notification itself opens its click URL. */
  lemma TwoActionExample(env: Env, userInfo: UserInfo, a1: Action, a2: Action)
    requires a1 == Action("a1", "view", Some("https://x/y"), "")
    requires a2 == Action("a2", "http", Some("https://x/z"), "method=POST")
    requires env.parseActions(ReadTapFields(env, userInfo).actions) == Some([a1, a2])
    ensures TapEffects(env, userInfo, "a2") == [Http(a2), TapCompleted]
    ensures ReadTapFields(env, userInfo).clickUrl.Some? ==>
      TapEffects(env, userInfo, DefaultActionIdentifier)
      == [Open(ReadTapFields(env, userInfo).clickUrl.value), TapCompleted]
  {
  }
}
