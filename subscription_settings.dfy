/**
  The notification switch of the profile: on mount it asks the subscriptions
  endpoint whether the user's email is subscribed, and each flip of the
  switch subscribes or unsubscribes that email. The switch is disabled while
  a request runs (`loading`), which is also the state the panel starts in.
 */
module SubscriptionPanel {
  import opened Wrappers
  import opened Http
  import opened Browser

  const MsgSubscribed := "Вы подписались на уведомления о новых материалах"
  const MsgUnsubscribed := "Вы отписались от уведомлений"
  const MsgToggleFailed := "Не удалось изменить настройки подписки"
  const MsgToggleCrashed := "Произошла ошибка при изменении настроек"

  /** The request the panel is waiting on. */
  datatype Pending = StatusCheck | Toggle(subscribed: bool)

  function StatusCall(email: string): Call {
    PostJson(SubscriptionsApi, map["action" := "status", "email" := email])
  }

  function ToggleCall(email: string, subscribed: bool): Call {
    PostJson(SubscriptionsApi, map["action" := (if subscribed then "subscribe" else "unsubscribe"), "email" := email])
  }

  /** `data.subscribed || false`. */
  function SubscribedField(body: Payload): (b: bool)
    ensures b <==> (body.SubscriptionStatus? || body.Subscription?) && body.subscribed
  {
    match body
    case SubscriptionStatus(subscribed, _) => subscribed
    case Subscription(_, subscribed) => subscribed
    case _ => false
  }

  class SubscriptionSettings {
    const userEmail: string
    var isSubscribed: bool
    var loading: bool
    var pending: Option<Pending>
    var toasts: seq<Toast>

    ghost predicate Valid()
      reads this
    {
      loading <==> pending.Some?
    }

    /** Mounting: the switch starts off and disabled while the status check runs. */
    constructor (userEmail: string)
      ensures Valid()
      ensures this.userEmail == userEmail && !isSubscribed && loading && pending == Some(StatusCheck) && toasts == []
      ensures PendingCall() == StatusCall(userEmail)
    {
      this.userEmail := userEmail;
      isSubscribed := false;
      loading := true;
      pending := Some(StatusCheck);
      toasts := [];
    }

    /** The request the panel has sent and not yet seen answered. */
    function PendingCall(): (c: Call)
      reads this
      requires pending.Some?
      ensures c.endpoint == SubscriptionsApi && "email" in c.request.body && c.request.body["email"] == userEmail
    {
      match pending.value
      case StatusCheck => StatusCall(userEmail)
      case Toggle(subscribed) => ToggleCall(userEmail, subscribed)
    }

    /** `checkSubscriptionStatus` after its `await`: only an ok reply changes the switch. */
    method FinishStatusCheck(reply: Reply)
      requires Valid() && pending == Some(StatusCheck)
      modifies this
      ensures Valid() && !loading
      ensures reply.Ok? ==> isSubscribed == SubscribedField(reply.body)
      ensures !reply.Ok? ==> isSubscribed == old(isSubscribed)
      ensures toasts == old(toasts)
    {
      if reply.Ok? {
        isSubscribed := SubscribedField(reply.body);
      }
      loading := false;
      pending := None;
    }

    /** `handleToggleSubscription(subscribed)` up to its `await`. */
    method StartToggle(subscribed: bool) returns (call: Call)
      requires Valid() && !loading
      modifies this
      ensures Valid() && loading && pending == Some(Toggle(subscribed))
      ensures call == ToggleCall(userEmail, subscribed) && call == PendingCall()
      ensures isSubscribed == old(isSubscribed) && toasts == old(toasts)
    {
      loading := true;
      pending := Some(Toggle(subscribed));
      call := ToggleCall(userEmail, subscribed);
    }

    /** `handleToggleSubscription` after its `await`: the switch follows the request only when it succeeded. */
    method FinishToggle(reply: Reply)
      requires Valid() && pending.Some? && pending.value.Toggle?
      modifies this
      ensures Valid() && !loading
      ensures reply.Ok? ==>
        var s := old(pending).value.subscribed;
        isSubscribed == s && toasts == old(toasts) + [Toast(true, if s then MsgSubscribed else MsgUnsubscribed)]
      ensures !reply.Ok? ==>
        isSubscribed == old(isSubscribed) && toasts == old(toasts) + [FailureToast(reply, MsgToggleFailed, MsgToggleCrashed)]
    {
      var s := pending.value.subscribed;
      if reply.Ok? {
        isSubscribed := s;
        toasts := toasts + [Toast(true, if s then MsgSubscribed else MsgUnsubscribed)];
      } else {
        toasts := toasts + [FailureToast(reply, MsgToggleFailed, MsgToggleCrashed)];
      }
      loading := false;
      pending := None;
    }
  }
}
