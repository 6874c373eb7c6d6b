/**
  The page a newsletter's unsubscribe link opens: it reads `token` from the
  query string once, on mount, and shows the outcome of the unsubscribe
  request it sends.
 */
module UnsubscribeLink {
  import opened Wrappers
  import opened Text
  import opened Http
  import opened Browser

  datatype PageStatus = Loading | Succeeded | Failed

  const MsgBadLink := "Неверная ссылка для отписки"
  const MsgDone := "Вы успешно отписались от уведомлений"
  const MsgFailed := "Не удалось отписаться"
  const MsgCrashed := "Произошла ошибка при отписке"

  function UnsubscribeCall(token: string): Call {
    PostJson(SubscriptionsApi, map["action" := "unsubscribe", "token" := token])
  }

  class UnsubscribePage {
    var status: PageStatus
    var message: string
    var mounted: bool
    /** The token of the request in flight. */
    var awaiting: Option<string>

    ghost predicate Valid()
      reads this
    {
      && (awaiting.Some? ==> mounted && status == Loading && Truthy(awaiting))
      && (!mounted ==> status == Loading && awaiting.None?)
    }

    constructor ()
      ensures Valid() && !mounted && status == Loading && message == "" && awaiting.None?
    {
      status := Loading;
      message := "";
      mounted := false;
      awaiting := None;
    }

    /** The mount effect: a missing or empty token fails at once; otherwise the request is sent. */
    method Mount(token: Option<string>) returns (call: Option<Call>)
      requires Valid() && !mounted
      modifies this
      ensures Valid() && mounted
      ensures !Truthy(token) ==> call.None? && status == Failed && message == MsgBadLink && awaiting.None?
      ensures Truthy(token) ==>
        call == Some(UnsubscribeCall(token.value)) && status == Loading && message == old(message) && awaiting == token
    {
      mounted := true;
      if !Truthy(token) {
        status := Failed;
        message := MsgBadLink;
        return None;
      }
      awaiting := token;
      call := Some(UnsubscribeCall(token.value));
    }

    /** `handleUnsubscribe` after its `await`. */
    method Resolve(reply: Reply)
      requires Valid() && awaiting.Some?
      modifies this
      ensures Valid() && mounted && awaiting.None?
      ensures reply.Ok? ==> status == Succeeded && message == MsgDone
      ensures reply.NotOk? ==> status == Failed && message == OrElse(reply.error, MsgFailed)
      ensures reply.Threw? ==> status == Failed && message == MsgCrashed
    {
      match reply {
        case Ok(_) =>
          status, message := Succeeded, MsgDone;
        case NotOk(_, error) =>
          status, message := Failed, OrElse(error, MsgFailed);
        case Threw(_) =>
          status, message := Failed, MsgCrashed;
      }
      awaiting := None;
    }
  }
}
