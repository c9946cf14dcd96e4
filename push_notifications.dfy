/** Browser notifications for the chat: asking for permission, and showing a
    notification while the page is hidden with a promise that is fulfilled
    once the page becomes visible again. */
module PushNotifications {

  datatype Option<T> = None | Some(value: T)

  const DefaultTitle: string := "Stygian - Nuova notifica"
  const IconUrl: string := "/favicon.ico"
  const UnsupportedMessage: string := "This browser does not support notifications."

  /** What the `Notification` constructor is given. */
  datatype Notification = Notification(title: string, body: string, icon: string)

  /** The state of a JavaScript promise; `Fulfilled(None)` is fulfilment
      with `undefined`. */
  datatype Settlement = Pending | Fulfilled(value: Option<Notification>) | Rejected

  /** A `visibilitychange` listener registered by one hidden-document call,
      with the notification it was created for and the state of the promise
      it resolves. */
  datatype Delivery = Delivery(notification: Notification, state: Settlement)

  /** The document: whether it is hidden, the notifications shown so far, and
      the listeners registered by `pushNotification`, oldest first. */
  datatype Doc = Doc(hidden: bool, shown: seq<Notification>, listeners: seq<Delivery>)

  /** The promise `pushNotification` returns: `Promise.resolve()`, or the one
      settled by the listener at the given index. */
  datatype Handle = AlreadyResolved | Awaiting(listener: nat)

  datatype PushResult = PushResult(doc: Doc, promise: Handle)

  predicate ValidHandle(d: Doc, h: Handle)
  {
    h.Awaiting? ==> h.listener < |d.listeners|
  }

  function PromiseState(d: Doc, h: Handle): Settlement
    requires ValidHandle(d, h)
  {
    match h
    case AlreadyResolved => Fulfilled(None)
    case Awaiting(i) => d.listeners[i].state
  }

  /** `title || "Stygian - Nuova notifica"`: an absent or empty title is
      falsy and falls back to the default. */
  function NotificationTitle(title: Option<string>): (r: string)
    ensures r != ""
    ensures title.Some? && title.value != "" ==> r == title.value
    ensures title == None || title == Some("") ==> r == "Stygian - Nuova notifica"
  {
    if title.Some? && title.value != "" then title.value else DefaultTitle
  }

  /** `pushNotification(body, title)`. */
  function Push(d: Doc, body: string, title: Option<string>): (r: PushResult)
    ensures ValidHandle(r.doc, r.promise)
    ensures r.doc.hidden == d.hidden
    ensures |r.doc.shown| == |d.shown| + (if d.hidden then 1 else 0)
    ensures |r.doc.listeners| == |d.listeners| + (if d.hidden then 1 else 0)
    ensures r.doc.shown[..|d.shown|] == d.shown
    ensures r.doc.listeners[..|d.listeners|] == d.listeners
    ensures PromiseState(r.doc, r.promise) == if d.hidden then Pending else Fulfilled(None)
    ensures d.hidden ==>
              r.doc.shown[|d.shown|] == Notification(NotificationTitle(title), body, "/favicon.ico") &&
              r.doc.listeners[|d.listeners|].notification == r.doc.shown[|d.shown|] &&
              r.promise == Awaiting(|d.listeners|)
  {
    if d.hidden then
      var n := Notification(NotificationTitle(title), body, IconUrl);
      PushResult(Doc(d.hidden, d.shown + [n], d.listeners + [Delivery(n, Pending)]),
                 Awaiting(|d.listeners|))
    else
      PushResult(d, AlreadyResolved)
  }

  /** One listener run on a `visibilitychange` event: it resolves its promise
      with its notification when the document is now visible. Resolving a
      promise that is already settled changes nothing. */
  function Listen(l: Delivery, visible: bool): (r: Delivery)
    ensures r.notification == l.notification
    ensures !visible || !l.state.Pending? ==> r == l
    ensures visible && l.state.Pending? ==> r.state == Fulfilled(Some(l.notification))
  {
    if visible && l.state.Pending? then Delivery(l.notification, Fulfilled(Some(l.notification)))
    else l
  }

  /** Every registered listener, in registration order, runs on the event. */
  function RunListeners(ls: seq<Delivery>, visible: bool): (r: seq<Delivery>)
    ensures |r| == |ls|
    ensures forall i :: 0 <= i < |ls| ==> r[i].notification == ls[i].notification
    ensures forall i :: 0 <= i < |ls| ==>
              r[i].state == if visible && ls[i].state.Pending? then Fulfilled(Some(ls[i].notification))
                            else ls[i].state
    decreases |ls|
  {
    if ls == [] then [] else [Listen(ls[0], visible)] + RunListeners(ls[1..], visible)
  }

  /** A `visibilitychange` event reporting the new state. */
  function OnVisibilityChange(d: Doc, visible: bool): (r: Doc)
    ensures r.hidden == !visible && r.shown == d.shown
    ensures |r.listeners| == |d.listeners|
    ensures forall i :: 0 <= i < |d.listeners| ==> r.listeners[i].notification == d.listeners[i].notification
    ensures !visible ==> r.listeners == d.listeners
    ensures visible ==> forall i :: 0 <= i < |r.listeners| ==> !r.listeners[i].state.Pending?
    ensures forall i :: 0 <= i < |d.listeners| && !d.listeners[i].state.Pending? ==>
              r.listeners[i] == d.listeners[i]
    ensures forall i :: 0 <= i < |d.listeners| && d.listeners[i].state.Pending? && visible ==>
              r.listeners[i].state == Fulfilled(Some(d.listeners[i].notification))
  {
    var ls := RunListeners(d.listeners, visible);
    assert !visible ==> ls == d.listeners;
    Doc(!visible, d.shown, ls)
  }

  /** Calls and events, as they reach the document one at a time. */
  datatype Event = PushCall(body: string, title: Option<string>) | VisibilityChange(visible: bool)

  function Step(d: Doc, e: Event): Doc
  {
    match e
    case PushCall(body, title) => Push(d, body, title).doc
    case VisibilityChange(v) => OnVisibilityChange(d, v)
  }

  function Run(d: Doc, es: seq<Event>): Doc
    decreases |es|
  {
    if es == [] then d else Run(Step(d, es[0]), es[1..])
  }

  /** Whether some event of the sequence reports the document visible. */
  predicate BecomesVisible(es: seq<Event>)
    decreases |es|
  {
    es != [] && (es[0] == VisibilityChange(true) || BecomesVisible(es[1..]))
  }

  predicate NoneRejected(d: Doc)
  {
    forall i :: 0 <= i < |d.listeners| ==> !d.listeners[i].state.Rejected?
  }

  /** A listener is never removed or moved; its promise stays pending until
      the first event that reports the document visible, is then fulfilled
      with its own notification, and afterwards never changes again. */
  lemma {:induction false} ListenerFate(d: Doc, es: seq<Event>, i: nat)
    requires i < |d.listeners|
    ensures i < |Run(d, es).listeners|
    ensures Run(d, es).listeners[i] ==
              if d.listeners[i].state.Pending? && BecomesVisible(es)
              then Delivery(d.listeners[i].notification, Fulfilled(Some(d.listeners[i].notification)))
              else d.listeners[i]
    decreases |es|
  {
    if es != [] {
      var g := Step(d, es[0]);
      assert i < |g.listeners| && g.listeners[i].notification == d.listeners[i].notification;
      ListenerFate(g, es[1..], i);
    }
  }

  /** A call made while the document is hidden returns a promise that is
      pending through every event up to the first one reporting the document
      visible, and from then on is fulfilled with the notification the call
      showed. */
  lemma HiddenPushResolvesOnVisible(d: Doc, body: string, title: Option<string>, es: seq<Event>)
    requires d.hidden
    ensures var p := Push(d, body, title);
            ValidHandle(Run(p.doc, es), p.promise) &&
            PromiseState(Run(p.doc, es), p.promise) ==
              if BecomesVisible(es)
              then Fulfilled(Some(Notification(NotificationTitle(title), body, IconUrl)))
              else Pending
  {
    var p := Push(d, body, title);
    ListenerFate(p.doc, es, |d.listeners|);
  }

  /** A call made while the document is visible shows nothing and returns a
      promise that is already fulfilled with `undefined`. */
  lemma VisiblePushIsNoop(d: Doc, body: string, title: Option<string>, es: seq<Event>)
    requires !d.hidden
    ensures Push(d, body, title).doc == d
    ensures PromiseState(Run(d, es), Push(d, body, title).promise) == Fulfilled(None)
  {
  }

  /** No promise handed out by `pushNotification` is ever rejected. */
  lemma {:induction false} NeverRejects(d: Doc, es: seq<Event>)
    requires NoneRejected(d)
    ensures NoneRejected(Run(d, es))
    decreases |es|
  {
    if es != [] {
      var g := Step(d, es[0]);
      assert NoneRejected(g) by {
        forall i | 0 <= i < |g.listeners|
          ensures !g.listeners[i].state.Rejected?
        {
          if i >= |d.listeners| {
            assert es[0].PushCall? && g.listeners[i].state == Pending;
          }
        }
      }
      NeverRejects(g, es[1..]);
    }
  }

  /** The document as the page sees it. */
  class Document {
    var hidden: bool
    var shown: seq<Notification>
    var listeners: seq<Delivery>

    function Snapshot(): Doc
      reads this
    {
      Doc(hidden, shown, listeners)
    }

    constructor (hidden: bool)
      ensures Snapshot() == Doc(hidden, [], [])
    {
      this.hidden := hidden;
      shown := [];
      listeners := [];
    }

    /** `pushNotification(body, title)` on this document. */
    method PushNotification(body: string, title: Option<string>) returns (promise: Handle)
      modifies this
      ensures PushResult(Snapshot(), promise) == Push(old(Snapshot()), body, title)
    {
      if hidden {
        var notificationTitle := NotificationTitle(title);
        var n := Notification(notificationTitle, body, IconUrl);
        shown := shown + [n];
        promise := Awaiting(|listeners|);
        listeners := listeners + [Delivery(n, Pending)];
      } else {
        promise := AlreadyResolved;
      }
    }

    /** The browser changes the visibility state and fires `visibilitychange`. */
    method DispatchVisibilityChange(visible: bool)
      modifies this
      ensures Snapshot() == OnVisibilityChange(old(Snapshot()), visible)
    {
      hidden := !visible;
      listeners := RunListeners(listeners, visible);
    }
  }

  /** The window's notification capability and what `askNotificationPermission`
      does with it. */
  class Window {
    const notificationSupported: bool
    var permissionRequests: nat
    var debugLog: seq<string>

    constructor (notificationSupported: bool)
      ensures this.notificationSupported == notificationSupported
      ensures permissionRequests == 0 && debugLog == []
    {
      this.notificationSupported := notificationSupported;
      permissionRequests := 0;
      debugLog := [];
    }

    /** Requests permission when `"Notification" in window`, and otherwise
        only logs that notifications are unsupported. */
    method AskNotificationPermission()
      modifies this
      ensures permissionRequests == old(permissionRequests) + (if notificationSupported then 1 else 0)
      ensures debugLog == if notificationSupported then old(debugLog)
                          else old(debugLog) + ["This browser does not support notifications."]
    {
      if notificationSupported {
        permissionRequests := permissionRequests + 1;
      } else {
        debugLog := debugLog + [UnsupportedMessage];
      }
    }
  }
}
