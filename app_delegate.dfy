/** The app delegate itself: the one field it updates (`selectedBaseUrl`),
    the trace of effects it causes, and its handlers, each proved to cause
    exactly the effects the functions of module Routing describe. */
module App {
  import opened Notifications
  import opened Routing

  /** `UNMutableNotificationContent`, as far as the app fills it in. */
  class MutableContent {
    var title: string
    var body: string
    var userInfo: UserInfo

    constructor ()
      ensures title == "" && body == "" && userInfo == map[]
    {
      title, body, userInfo := "", "", map[];
    }
  }

  class AppDelegate {
    /** The collaborators the delegate calls. */
    const env: Env
    /** The subscription URL to navigate to after a tap; nil at launch. */
    var selectedBaseUrl: Option<string>
    /** Every effect caused so far, oldest first. */
    var trace: seq<Effect>

    constructor (env: Env)
      ensures this.env == env && selectedBaseUrl == None && trace == []
    {
      this.env := env;
      selectedBaseUrl := None;
      trace := [];
    }

    /** A background push arrived: unless its topic is "~poll", report
        `.noData`; otherwise poll every stored subscription, show each
        message it returns, and report `.newData`. `stored` is what the
        store holds and `poll` what each poll delivers, both on this push. */
    method DidReceiveRemoteNotification(userInfo: UserInfo, stored: Option<seq<Subscription>>, poll: Subscription -> seq<Message>)
      modifies this`trace
      ensures trace == old(trace) + PollEffects(env, userInfo, stored, poll)
    {
      var topic := StringOr(userInfo, "topic", "");
      if topic != PollTimerTopic {
        trace := trace + [FetchCompleted(NoData)];
        return;
      }
      if stored.Some? {
        PollStored(stored.value, poll);
      }
      trace := trace + [FetchCompleted(NewData)];
    }

    /** `store.getSubscriptions()?.forEach`: start a poll for each stored
        subscription, in order, and show what it delivers. */
    method PollStored(subscriptions: seq<Subscription>, poll: Subscription -> seq<Message>)
      modifies this`trace
      ensures trace == old(trace) + Dispatch(env, poll, subscriptions)
    {
      var i := 0;
      while i < |subscriptions|
        invariant 0 <= i <= |subscriptions|
        invariant trace == old(trace) + Dispatch(env, poll, subscriptions[..i])
      {
        PollOne(subscriptions[i], poll);
        DispatchPrefix(env, poll, subscriptions, i);
        i := i + 1;
      }
      assert subscriptions[..i] == subscriptions;
    }

    /** One iteration of the `forEach`: start the poll of a subscription and
        show what it delivers. */
    method PollOne(subscription: Subscription, poll: Subscription -> seq<Message>)
      modifies this`trace
      ensures trace == old(trace) + Block(env, poll, subscription)
    {
      trace := trace + [Polled(subscription)];
      ShowPolled(subscription, poll(subscription));
    }

    /** The poll callback: show every message the poll returned, in order. */
    method ShowPolled(subscription: Subscription, messages: seq<Message>)
      modifies this`trace
      ensures trace == old(trace) + Shows(env, subscription, messages)
    {
      var j := 0;
      while j < |messages|
        invariant 0 <= j <= |messages|
        invariant trace == old(trace) + Shows(env, subscription, messages[..j])
      {
        ShowNotification(subscription, messages[j]);
        assert messages[..j + 1][..j] == messages[..j];
        j := j + 1;
      }
      assert messages[..j] == messages;
    }

    /** Show a message of a subscription as a local notification whose
        userInfo looks like that of a remote one. */
    method ShowNotification(subscription: Subscription, message: Message)
      modifies this`trace
      ensures trace == old(trace) + [Show(BuildRequest(env, subscription, message))]
    {
      var userInfo := env.toUserInfo(message);
      userInfo := userInfo["base_url" := Str(subscription.baseUrl)];
      userInfo := userInfo["topic" := Str(subscription.topic)];

      var content := new MutableContent();
      content.title := message.title.GetOr("");
      content.body := message.message.GetOr("");
      content.userInfo := userInfo;

      var request := NotificationRequest(message.id, content.title, content.body, content.userInfo);
      trace := trace + [Show(request)];
    }

    /** The user tapped a notification, or one of its buttons. */
    method DidReceive(userInfo: UserInfo, actionId: string)
      modifies this`selectedBaseUrl, this`trace
      ensures selectedBaseUrl == SelectedAfterTap(env, userInfo, old(selectedBaseUrl))
      ensures trace == old(trace) + TapEffects(env, userInfo, actionId)
    {
      var baseUrl := StringOr(userInfo, "base_url", env.appBaseUrl);
      var topic := StringOr(userInfo, "topic", "");
      var clickUrl := env.parseUrl(StringOr(userInfo, "click", ""));
      var actions := StringOr(userInfo, "actions", "[]");
      var action := FindAction(actionId, env.parseActions(actions));

      if topic != "" {
        selectedBaseUrl := Some(env.topicUrl(baseUrl, topic));
      }

      if action.Some? {
        Handle(action.value);
      } else if clickUrl.Some? {
        OpenUrl(clickUrl.value);
      }

      trace := trace + [TapCompleted];
    }

    /** Execute a user action according to its kind. */
    method Handle(action: Action)
      modifies this`trace
      ensures trace == old(trace) + ActionEffects(env, action)
    {
      match action.action
      case "view" =>
        var url := env.parseUrl(action.url.GetOr(""));
        if url.Some? {
          OpenUrl(url.value);
        }
      case "http" =>
        trace := trace + [Http(action)];
      case _ =>
    }

    method OpenUrl(url: Url)
      modifies this`trace
      ensures trace == old(trace) + [Open(url)]
    {
      trace := trace + [Open(url)];
    }
  }
}
