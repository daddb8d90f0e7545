/** The socket session: the latest socket built from a token, the token
    listeners that build it, the messages sent on it and the errors logged,
    and the `messages$` subject that republishes what the sockets receive. */
module WebSocket {
  import opened Wrappers
  import opened Models

  const NotInitializedMessage: string := "WebSocket connection not initialized."

  /** The connection URL for `token` on the channel URL `base`. */
  function SocketUrl(base: string, token: string): string {
    base + "?token=" + token
  }

  /** A socket, identified by its creation number, and the URL it was created on. */
  datatype Socket = Socket(id: nat, url: string)

  /** A message handed to socket `socket`. */
  datatype Sent = Sent(socket: nat, message: SubscriptionMessage)

  /** What a socket reports to its subscriber. */
  datatype SocketEvent = Inbound(message: WebSocketMessage) | SocketFailure(reason: string) | SocketClosed

  datatype StreamState = Live | Errored(reason: string) | Completed

  /** The `messages$` subject: its state, everything it has emitted, the ids
      of its current observers and the id the next observer gets. */
  datatype MessageStream = MessageStream(
    state: StreamState,
    delivered: seq<WebSocketMessage>,
    observers: set<nat>,
    nextObserver: nat)

  /** Which subscription `_tokenSubscription` refers to. */
  datatype TokenSubscription = AuthFeed | ConnectListener

  /** `messages$` after a socket reports `e`: a message is emitted as it is,
      an error or a completion ends the subject and drops its observers, and
      an ended subject ignores everything. */
  function Forward(s: MessageStream, e: SocketEvent): MessageStream {
    if !s.state.Live? then s
    else match e
      case Inbound(m) => s.(delivered := s.delivered + [m])
      case SocketFailure(reason) => s.(state := Errored(reason), observers := {})
      case SocketClosed => s.(state := Completed, observers := {})
  }

  function ForwardAll(s: MessageStream, es: seq<SocketEvent>): MessageStream
    decreases |es|
  {
    if es == [] then s else ForwardAll(Forward(s, es[0]), es[1..])
  }

  /** The inbound messages of `es` before its first error or completion. */
  function InboundPrefix(es: seq<SocketEvent>): seq<WebSocketMessage> {
    if es == [] then []
    else match es[0]
      case Inbound(m) => [m] + InboundPrefix(es[1..])
      case SocketFailure(_) => []
      case SocketClosed => []
  }

  class WebSocketService {
    /** The channel URL from the application configuration. */
    const base: string
    /** The value of `_token$`. */
    var token: Option<string>
    /** Whether the constructor's subscription to `getToken()` still feeds `_token$`. */
    var authFeedActive: bool
    /** How many `connect()` listeners on `_token$` are subscribed. */
    var listeners: nat
    var tracked: TokenSubscription
    /** Whether the subscription `_tokenSubscription` refers to is still subscribed. */
    var trackedActive: bool
    /** `_socket$`: the socket created last, if any. */
    var socket: Option<Socket>
    /** How many sockets have been created. */
    var created: nat
    var sent: seq<Sent>
    /** What `console.error` has logged. */
    var errors: seq<string>
    /** Ids of the sockets `closeConnection` completed, in order. */
    var completed: seq<nat>
    var messages: MessageStream

    ghost predicate Valid()
      reads this
    {
      && (socket.None? <==> created == 0)
      && (socket.Some? ==> socket.value.id == created - 1)
      && (forall i :: 0 <= i < |sent| ==> sent[i].socket < created)
      && (forall i :: 0 <= i < |completed| ==> completed[i] < created)
      && (!messages.state.Live? ==> messages.observers == {})
      && (forall o :: o in messages.observers ==> o < messages.nextObserver)
      && (tracked == AuthFeed ==> listeners == 0 && trackedActive == authFeedActive)
      && (tracked == ConnectListener && trackedActive ==> listeners > 0)
    }

    constructor (channelUrl: string)
      ensures Valid()
      ensures base == channelUrl && token == None && authFeedActive
      ensures listeners == 0 && tracked == AuthFeed && trackedActive
      ensures socket == None && created == 0 && sent == [] && errors == [] && completed == []
      ensures messages == MessageStream(Live, [], {}, 0)
    {
      base := channelUrl;
      token := None;
      authFeedActive := true;
      listeners := 0;
      tracked := AuthFeed;
      trackedActive := true;
      socket := None;
      created := 0;
      sent := [];
      errors := [];
      completed := [];
      messages := MessageStream(Live, [], {}, 0);
    }

    /** `getToken()` emits `t` into the constructor's subscription: `_token$`
        takes it and every subscribed `connect()` listener runs with it; each
        one opens a socket for a non-empty token, so the last one created is
        the one kept. */
    method OnAuthToken(t: Option<string>)
      requires Valid()
      modifies this
      ensures Valid()
      ensures token == if old(authFeedActive) then t else old(token)
      ensures if old(authFeedActive) && IsTruthy(t) && old(listeners) > 0 then
          && socket == Some(Socket(old(created) + old(listeners) - 1, SocketUrl(base, t.value)))
          && created == old(created) + old(listeners)
        else socket == old(socket) && created == old(created)
      ensures authFeedActive == old(authFeedActive) && listeners == old(listeners)
      ensures tracked == old(tracked) && trackedActive == old(trackedActive)
      ensures sent == old(sent) && errors == old(errors) && completed == old(completed) && messages == old(messages)
    {
      if authFeedActive {
        token := t;
        if IsTruthy(t) && listeners > 0 {
          created := created + listeners;
          socket := Some(Socket(created - 1, SocketUrl(base, t.value)));
        }
      }
    }

    /** `connect()`: subscribes one more listener to `_token$`, which runs at
        once with the current token; the previous `_tokenSubscription` is
        overwritten but stays subscribed. */
    method Connect()
      requires Valid()
      modifies this
      ensures Valid()
      ensures listeners == old(listeners) + 1 && tracked == ConnectListener && trackedActive
      ensures if IsTruthy(old(token)) then
          socket == Some(Socket(old(created), SocketUrl(base, old(token).value))) && created == old(created) + 1
        else socket == old(socket) && created == old(created)
      ensures token == old(token) && authFeedActive == old(authFeedActive)
      ensures sent == old(sent) && errors == old(errors) && completed == old(completed) && messages == old(messages)
    {
      listeners := listeners + 1;
      tracked := ConnectListener;
      trackedActive := true;
      if IsTruthy(token) {
        socket := Some(Socket(created, SocketUrl(base, token.value)));
        created := created + 1;
      }
    }

    /** `sendMessage(message)`: handed to the current socket exactly once,
        or, with no socket, one error logged and nothing sent. */
    method SendMessage(message: SubscriptionMessage)
      requires Valid()
      modifies this
      ensures Valid()
      ensures old(socket).Some? ==> sent == old(sent) + [Sent(old(socket).value.id, message)] && errors == old(errors)
      ensures old(socket).None? ==> sent == old(sent) && errors == old(errors) + [NotInitializedMessage]
      ensures token == old(token) && authFeedActive == old(authFeedActive) && listeners == old(listeners)
      ensures tracked == old(tracked) && trackedActive == old(trackedActive)
      ensures socket == old(socket) && created == old(created) && completed == old(completed) && messages == old(messages)
    {
      if socket.Some? {
        sent := sent + [Sent(socket.value.id, message)];
      } else {
        errors := errors + [NotInitializedMessage];
      }
    }

    /** `closeConnection()`: completes the current socket if there is one
        (the reference is kept) and unsubscribes whatever
        `_tokenSubscription` refers to. */
    method CloseConnection()
      requires Valid()
      modifies this
      ensures Valid()
      ensures completed == if old(socket).Some? then old(completed) + [old(socket).value.id] else old(completed)
      ensures !trackedActive
      ensures old(trackedActive) && tracked == AuthFeed ==> !authFeedActive && listeners == old(listeners)
      ensures old(trackedActive) && tracked == ConnectListener ==>
        authFeedActive == old(authFeedActive) && listeners == old(listeners) - 1
      ensures !old(trackedActive) ==> authFeedActive == old(authFeedActive) && listeners == old(listeners)
      ensures token == old(token) && tracked == old(tracked)
      ensures socket == old(socket) && created == old(created) && sent == old(sent) && errors == old(errors)
      ensures messages == old(messages)
    {
      if socket.Some? {
        completed := completed + [socket.value.id];
      }
      if trackedActive {
        if tracked == AuthFeed {
          authFeedActive := false;
        } else {
          listeners := listeners - 1;
        }
        trackedActive := false;
      }
    }

    /** A socket reports `e` to its subscriber, which passes it to
        `messages$`; `notified` are the observers that receive it. */
    method OnSocketEvent(e: SocketEvent) returns (notified: set<nat>)
      requires Valid()
      modifies this
      ensures Valid()
      ensures messages == Forward(old(messages), e)
      ensures notified == if old(messages.state).Live? then old(messages.observers) else {}
      ensures token == old(token) && authFeedActive == old(authFeedActive) && listeners == old(listeners)
      ensures tracked == old(tracked) && trackedActive == old(trackedActive)
      ensures socket == old(socket) && created == old(created) && sent == old(sent) && errors == old(errors)
      ensures completed == old(completed)
    {
      notified := if messages.state.Live? then messages.observers else {};
      messages := Forward(messages, e);
    }

    /** `messages$.subscribe(...)`: a live subject adds the new observer; an
        ended one only hands it the end and keeps no reference to it. */
    method Subscribe() returns (id: nat)
      requires Valid()
      modifies this
      ensures Valid()
      ensures id == old(messages.nextObserver)
      ensures messages.observers == if old(messages.state).Live? then old(messages.observers) + {id} else old(messages.observers)
      ensures messages.nextObserver == id + 1
      ensures messages.state == old(messages.state) && messages.delivered == old(messages.delivered)
      ensures token == old(token) && authFeedActive == old(authFeedActive) && listeners == old(listeners)
      ensures tracked == old(tracked) && trackedActive == old(trackedActive)
      ensures socket == old(socket) && created == old(created) && sent == old(sent) && errors == old(errors)
      ensures completed == old(completed)
    {
      id := messages.nextObserver;
      if messages.state.Live? {
        messages := messages.(observers := messages.observers + {id});
      }
      messages := messages.(nextObserver := id + 1);
    }

    /** `subscription.unsubscribe()` for the observer `id`. */
    method Unsubscribe(id: nat)
      requires Valid()
      modifies this
      ensures Valid()
      ensures messages == old(messages).(observers := old(messages.observers) - {id})
      ensures token == old(token) && authFeedActive == old(authFeedActive) && listeners == old(listeners)
      ensures tracked == old(tracked) && trackedActive == old(trackedActive)
      ensures socket == old(socket) && created == old(created) && sent == old(sent) && errors == old(errors)
      ensures completed == old(completed)
    {
      messages := messages.(observers := messages.observers - {id});
    }
  }

  /** The URL starts with the channel URL and ends with the token, so the
      token can be read back from it. */
  lemma SocketUrlCarriesToken(base: string, token: string)
    ensures |SocketUrl(base, token)| == |base| + 7 + |token|
    ensures SocketUrl(base, token)[..|base|] == base
    ensures SocketUrl(base, token)[|base|..|base| + 7] == "?token="
    ensures SocketUrl(base, token)[|base| + 7..] == token
  {
  }

  /** Different tokens give different URLs on the same channel. */
  lemma SocketUrlInjective(base: string, t1: string, t2: string)
    requires SocketUrl(base, t1) == SocketUrl(base, t2)
    ensures t1 == t2
  {
    SocketUrlCarriesToken(base, t1);
    SocketUrlCarriesToken(base, t2);
  }

  /** Once `messages$` has ended, nothing a socket reports changes it. */
  lemma {:induction false} EndedStreamStays(s: MessageStream, es: seq<SocketEvent>)
    requires !s.state.Live?
    ensures ForwardAll(s, es) == s
    decreases |es|
  {
    if es != [] {
      EndedStreamStays(Forward(s, es[0]), es[1..]);
    }
  }

  /** On a live `messages$`, the sockets' inbound messages are emitted
      unchanged and in order up to the first error or completion, and
      nothing after it. */
  lemma {:induction false} ForwardAllDelivers(s: MessageStream, es: seq<SocketEvent>)
    requires s.state.Live?
    ensures ForwardAll(s, es).delivered == s.delivered + InboundPrefix(es)
    ensures (forall i :: 0 <= i < |es| ==> es[i].Inbound?) <==> ForwardAll(s, es).state.Live?
    decreases |es|
  {
    if es != [] {
      var next := Forward(s, es[0]);
      match es[0]
      case Inbound(m) =>
        ForwardAllDelivers(next, es[1..]);
        assert forall i :: 1 <= i < |es| ==> es[i] == es[1..][i - 1];
      case SocketFailure(_) =>
        EndedStreamStays(next, es[1..]);
      case SocketClosed =>
        EndedStreamStays(next, es[1..]);
    }
  }
}
