/**
  The browser facilities the client code uses: `localStorage` as a mutable
  key/value map, the outcome of `await fetch(...)` followed by
  `await response.json()`, the four cloud-function endpoints, and the slice of
  the DOM (`<html>`, `<body>` and `#root` styles and classes) that the
  background settings change.
 */
module Browser {
  import opened Wrappers
  import opened Text
  import opened Http

  /** `window.localStorage`. */
  class LocalStorage {
    var items: map<string, string>

    constructor (items: map<string, string>)
      ensures this.items == items
    {
      this.items := items;
    }

    /** `getItem(key)`: the stored string, or null. */
    function GetItem(key: string): (r: Option<string>)
      reads this
      ensures r.Some? <==> key in items
      ensures r.Some? ==> r.value == items[key]
    {
      if key in items then Some(items[key]) else None
    }

    method SetItem(key: string, value: string)
      modifies this
      ensures items == old(items)[key := value]
    {
      items := items[key := value];
    }

    method RemoveItem(key: string)
      modifies this
      ensures items == old(items) - {key}
    {
      items := items - {key};
    }
  }

  /**
    What a request yields once its JSON body is read: an ok response with its
    body, a non-ok response whose body may carry an `error` string, or an
    exception (network failure or unreadable JSON) with its message.
   */
  datatype Reply = Ok(body: Payload) | NotOk(status: int, error: Option<string>) | Threw(message: string)

  /** The `error` field of a JSON body, if it has one. */
  function ErrorField(p: Payload): Option<string> {
    if p.Error? then Some(p.error) else None
  }

  /** How the browser sees a handler's response: `response.ok` and the parsed body. */
  function ReplyOf(r: Response): (reply: Reply)
    ensures reply.Ok? <==> IsOk(r)
    ensures reply.Ok? ==> reply.body == r.payload
    ensures reply.NotOk? ==> reply.status == r.status && reply.error == ErrorField(r.payload)
  {
    if IsOk(r) then Ok(r.payload) else NotOk(r.status, ErrorField(r.payload))
  }

  /** A notification raised with `toast.success` (success) or `toast.error`. */
  datatype Toast = Toast(success: bool, text: string)

  /** The toast a failed request raises: the body's error or the fallback, or the crash message. */
  function FailureToast(reply: Reply, fallback: string, crashed: string): (t: Toast)
    requires !reply.Ok?
    ensures !t.success
    ensures reply.Threw? ==> t.text == crashed
    ensures reply.NotOk? && reply.error.Some? && reply.error.value != "" ==> t.text == reply.error.value
    ensures reply.NotOk? && !Truthy(reply.error) ==> t.text == fallback
  {
    if reply.Threw? then Toast(false, crashed) else Toast(false, OrElse(reply.error, fallback))
  }

  /** The cloud functions the client talks to. */
  datatype Endpoint = AuthApi | AccountApi | SubscriptionsApi | DonationsApi

  /** One `fetch`: where it goes and what the handler receives. */
  datatype Call = Call(endpoint: Endpoint, request: Request)

  /** A POST whose JSON body holds the given string fields. */
  function PostJson(endpoint: Endpoint, fields: map<string, string>): Call {
    Call(endpoint, Request(Some("POST"), fields, None, None))
  }

  /** The values of a `Page`'s fields at one moment. */
  datatype Styles = Styles(
    htmlHeight: string,
    bodyHeight: string,
    bodyMargin: string,
    background: string,
    backgroundSize: string,
    backgroundPosition: string,
    backgroundAttachment: string,
    bodyClasses: set<string>,
    rootClasses: Option<set<string>>)

  /** The inline styles and classes of the document that the background settings touch. */
  class Page {
    var htmlHeight: string
    var bodyHeight: string
    var bodyMargin: string
    var background: string
    var backgroundSize: string
    var backgroundPosition: string
    var backgroundAttachment: string
    var bodyClasses: set<string>
    /** The classes of `#root`, or None when the element is missing. */
    var rootClasses: Option<set<string>>

    /** All nine fields at once, so that a contract can compare the page before and after. */
    function Snapshot(): (s: Styles)
      reads this
      ensures s.htmlHeight == htmlHeight && s.bodyHeight == bodyHeight && s.bodyMargin == bodyMargin
      ensures s.background == background && s.backgroundSize == backgroundSize
      ensures s.backgroundPosition == backgroundPosition && s.backgroundAttachment == backgroundAttachment
      ensures s.bodyClasses == bodyClasses && s.rootClasses == rootClasses
    {
      Styles(htmlHeight, bodyHeight, bodyMargin, background, backgroundSize, backgroundPosition,
             backgroundAttachment, bodyClasses, rootClasses)
    }

    constructor (bodyClasses: set<string>, rootClasses: Option<set<string>>)
      ensures htmlHeight == "" && bodyHeight == "" && bodyMargin == ""
      ensures background == "" && backgroundSize == "" && backgroundPosition == "" && backgroundAttachment == ""
      ensures this.bodyClasses == bodyClasses && this.rootClasses == rootClasses
    {
      htmlHeight, bodyHeight, bodyMargin := "", "", "";
      background, backgroundSize, backgroundPosition, backgroundAttachment := "", "", "", "";
      this.bodyClasses := bodyClasses;
      this.rootClasses := rootClasses;
    }
  }
}
