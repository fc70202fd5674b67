/**
 * The client-side chat store: the contact list, the conversation with the
 * selected user, two loading flags, and the `newMessage` listeners it
 * installs on the live socket. Every request the store makes is one atomic
 * step here: the server's answer (or the failure) is a parameter.
 */
module ChatStore {
  import opened Wrappers

  datatype User = User(id: string, fullName: string, email: string, profilePic: Option<string>)

  datatype Message = Message(id: string, senderId: string, receiverId: string, text: string, createdAt: string)

  /** What the message input posts. */
  datatype MessageData = MessageData(text: string)

  /** How a request through the HTTP client ended: the server's data, or a
      failure carrying the `message` the server sent, if any. */
  datatype Fetched<T> = Fetched(data: T) | Failed(serverMessage: Option<string>)

  /** The toast a failed request shows: the server's message when it sent a
      non-empty one, the fixed fallback otherwise. */
  function ToastText(serverMessage: Option<string>, fallback: string): string
  {
    if serverMessage.Some? && serverMessage.value != "" then serverMessage.value else fallback
  }

  const NewMessageEvent := "newMessage"
  const UsersFailed := "Failed to fetch users"
  const MessagesFailed := "Failed to fetch messages"
  const SendFailed := "Failed to send message"

  /** A listener on the socket: the store's `newMessage` handler, which
      remembers the id of the user selected when it was installed, or a
      listener some other part of the client installed, known by a tag. */
  datatype Handler = AppendIfFrom(senderId: string) | Foreign(tag: nat)

  datatype Listener = Listener(event: string, handler: Handler)

  /** Whether listener `l`, called with message `m`, appends it. */
  predicate Appends(l: Listener, m: Message)
  {
    l.event == NewMessageEvent && l.handler.AppendIfFrom? && l.handler.senderId == m.senderId
  }

  /** The conversation after one `newMessage` event carrying `m` has reached
      the listeners `ls`, in the order they were registered. */
  function Deliver(messages: seq<Message>, ls: seq<Listener>, m: Message): seq<Message>
    decreases |ls|
  {
    if ls == [] then messages
    else Deliver(if Appends(ls[0], m) then messages + [m] else messages, ls[1..], m)
  }

  /** How many of the listeners `ls` append `m`. */
  function Matching(ls: seq<Listener>, m: Message): nat
  {
    if ls == [] then 0 else (if Appends(ls[0], m) then 1 else 0) + Matching(ls[1..], m)
  }

  function Repeat(m: Message, n: nat): (r: seq<Message>)
    ensures |r| == n && forall i :: 0 <= i < n ==> r[i] == m
  {
    if n == 0 then [] else [m] + Repeat(m, n - 1)
  }

  /** One event appends the message once per listener that takes it, after
      everything already in the conversation. */
  lemma {:induction false} DeliverAppendsPerMatch(messages: seq<Message>, ls: seq<Listener>, m: Message)
    ensures Deliver(messages, ls, m) == messages + Repeat(m, Matching(ls, m))
    decreases |ls|
  {
    if ls != [] {
      var next := if Appends(ls[0], m) then messages + [m] else messages;
      DeliverAppendsPerMatch(next, ls[1..], m);
      if Appends(ls[0], m) {
        assert Repeat(m, Matching(ls, m)) == [m] + Repeat(m, Matching(ls[1..], m));
        assert messages + [m] + Repeat(m, Matching(ls[1..], m)) == messages + ([m] + Repeat(m, Matching(ls[1..], m)));
      }
    }
  }

  lemma {:induction false} MatchingAppend(a: seq<Listener>, b: seq<Listener>, m: Message)
    ensures Matching(a + b, m) == Matching(a, m) + Matching(b, m)
  {
    if a == [] {
      assert a + b == b;
    } else {
      assert (a + b)[0] == a[0] && (a + b)[1..] == a[1..] + b;
      MatchingAppend(a[1..], b, m);
    }
  }

  /** No listener takes a message whose sender none of the store's handlers
      was installed for. */
  lemma {:induction false} MatchingOnlyCapturedSenders(ls: seq<Listener>, m: Message)
    requires forall i :: 0 <= i < |ls| && ls[i].event == NewMessageEvent && ls[i].handler.AppendIfFrom? ==>
      ls[i].handler.senderId != m.senderId
    ensures Matching(ls, m) == 0
  {
    if ls != [] {
      assert !Appends(ls[0], m);
      MatchingOnlyCapturedSenders(ls[1..], m);
    }
  }

  /** Delivery only ever extends the conversation, and only with copies of
      the delivered message; it leaves it unchanged when no handler was
      installed for the sender. */
  lemma DeliveryExtends(messages: seq<Message>, ls: seq<Listener>, m: Message)
    ensures var r := Deliver(messages, ls, m);
      |messages| <= |r| && r[..|messages|] == messages &&
      forall i :: |messages| <= i < |r| ==> r[i] == m
    ensures (forall i :: 0 <= i < |ls| && ls[i].event == NewMessageEvent && ls[i].handler.AppendIfFrom? ==>
      ls[i].handler.senderId != m.senderId) ==> Deliver(messages, ls, m) == messages
  {
    DeliverAppendsPerMatch(messages, ls, m);
    var r := Deliver(messages, ls, m);
    assert r[..|messages|] == messages;
    if forall i :: 0 <= i < |ls| && ls[i].event == NewMessageEvent && ls[i].handler.AppendIfFrom? ==>
      ls[i].handler.senderId != m.senderId {
      MatchingOnlyCapturedSenders(ls, m);
      assert r == messages + [];
    }
  }

  /** `socket.off(event)`: the listeners left once every listener for
      `event` is removed. */
  function WithoutEvent(ls: seq<Listener>, event: string): (r: seq<Listener>)
    ensures forall l :: l in r <==> l in ls && l.event != event
    ensures forall l :: multiset(r)[l] == if l.event == event then 0 else multiset(ls)[l]
    ensures |r| <= |ls|
  {
    if ls == [] then []
    else
      assert ls == [ls[0]] + ls[1..];
      if ls[0].event == event then WithoutEvent(ls[1..], event)
      else [ls[0]] + WithoutEvent(ls[1..], event)
  }

  /** `off` keeps the surviving listeners in registration order: removing
      from a concatenation removes from each part, so a listener registered
      before another stays before it. */
  lemma {:induction false} WithoutEventAppend(a: seq<Listener>, b: seq<Listener>, event: string)
    ensures WithoutEvent(a + b, event) == WithoutEvent(a, event) + WithoutEvent(b, event)
  {
    if a == [] {
      assert a + b == b;
    } else {
      assert (a + b)[0] == a[0] && (a + b)[1..] == a[1..] + b;
      WithoutEventAppend(a[1..], b, event);
    }
  }

  /** Once the `newMessage` listeners are removed, an incoming message
      changes nothing. */
  lemma {:induction false} DeliverAfterOff(messages: seq<Message>, ls: seq<Listener>, m: Message)
    ensures Deliver(messages, WithoutEvent(ls, NewMessageEvent), m) == messages
  {
    var r := WithoutEvent(ls, NewMessageEvent);
    forall i | 0 <= i < |r| ensures r[i].event != NewMessageEvent {
      assert r[i] in r;
    }
    DeliveryExtends(messages, r, m);
  }

  /** Each subscription that passes its guards adds one more listener, so a
      second subscription for the same user makes every later message from
      that user arrive twice. */
  lemma SubscribingTwiceDuplicates(messages: seq<Message>, ls: seq<Listener>, id: string, m: Message)
    requires m.senderId == id
    ensures var h := Listener(NewMessageEvent, AppendIfFrom(id));
      Deliver(messages, ls + [h, h], m) == Deliver(messages, ls, m) + [m, m]
  {
    var h := Listener(NewMessageEvent, AppendIfFrom(id));
    DeliverAppendsPerMatch(messages, ls + [h, h], m);
    DeliverAppendsPerMatch(messages, ls, m);
    MatchingAppend(ls, [h, h], m);
    assert Matching([h, h], m) == 2 by {
      assert Appends(h, m);
      assert [h][1..] == [];
      assert Matching([h], m) == 1;
      assert [h, h][1..] == [h];
    }
    var k := Matching(ls, m);
    assert Repeat(m, k + 2) == Repeat(m, k) + [m, m];
  }

  /** The live socket the auth store holds: its listeners, in registration
      order. */
  class Socket {
    var listeners: seq<Listener>

    constructor (listeners: seq<Listener>)
      ensures this.listeners == listeners
    {
      this.listeners := listeners;
    }

    /** `socket.on(event, handler)`. */
    method On(event: string, h: Handler)
      modifies this
      ensures listeners == old(listeners) + [Listener(event, h)]
    {
      listeners := listeners + [Listener(event, h)];
    }

    /** `socket.off(event)`. */
    method Off(event: string)
      modifies this
      ensures listeners == WithoutEvent(old(listeners), event)
    {
      listeners := WithoutEvent(listeners, event);
    }
  }

  class Store {
    var messages: seq<Message>
    var users: seq<User>
    var selectedUser: Option<User>
    var isUsersLoading: bool
    var isMessagesLoading: bool

    constructor ()
      ensures messages == [] && users == [] && selectedUser == None
      ensures !isUsersLoading && !isMessagesLoading
    {
      messages := [];
      users := [];
      selectedUser := None;
      isUsersLoading := false;
      isMessagesLoading := false;
    }

    /** `getUsers`: replaces the contact list with the server's, or keeps it
        and shows a toast; the loading flag is cleared either way. */
    method GetUsers(response: Fetched<seq<User>>) returns (toast: Option<string>)
      modifies this
      ensures users == if response.Fetched? then response.data else old(users)
      ensures !isUsersLoading
      ensures messages == old(messages) && selectedUser == old(selectedUser) && isMessagesLoading == old(isMessagesLoading)
      ensures toast == if response.Failed? then Some(ToastText(response.serverMessage, UsersFailed)) else None
    {
      isUsersLoading := true;
      toast := None;
      match response {
        case Fetched(data) => users := data;
        case Failed(serverMessage) => toast := Some(ToastText(serverMessage, UsersFailed));
      }
      isUsersLoading := false;
    }

    /** `getMessages(userId)`: replaces the conversation with the one the
        server returned for `userId`, or keeps it and shows a toast; the
        loading flag is cleared either way. */
    method GetMessages(userId: string, response: Fetched<seq<Message>>) returns (toast: Option<string>)
      modifies this
      ensures messages == if response.Fetched? then response.data else old(messages)
      ensures !isMessagesLoading
      ensures users == old(users) && selectedUser == old(selectedUser) && isUsersLoading == old(isUsersLoading)
      ensures toast == if response.Failed? then Some(ToastText(response.serverMessage, MessagesFailed)) else None
    {
      isMessagesLoading := true;
      toast := None;
      match response {
        case Fetched(data) => messages := data;
        case Failed(serverMessage) => toast := Some(ToastText(serverMessage, MessagesFailed));
      }
      isMessagesLoading := false;
    }

    /** `sendMessage(data)`: with no user selected, no request is made and
        nothing changes; otherwise the message the server stored is added
        after the conversation, or a toast is shown. */
    method SendMessage(data: MessageData, response: Fetched<Message>) returns (requested: bool, toast: Option<string>)
      modifies this
      ensures requested <==> old(selectedUser).Some?
      ensures !requested ==> unchanged(this) && toast == None
      ensures messages == if requested && response.Fetched? then old(messages) + [response.data] else old(messages)
      ensures users == old(users) && selectedUser == old(selectedUser)
      ensures isUsersLoading == old(isUsersLoading) && isMessagesLoading == old(isMessagesLoading)
      ensures toast == if requested && response.Failed? then Some(ToastText(response.serverMessage, SendFailed)) else None
    {
      toast := None;
      if selectedUser.None? {
        return false, None;
      }
      requested := true;
      var sent := messages;
      match response {
        case Fetched(m) => messages := sent + [m];
        case Failed(serverMessage) => toast := Some(ToastText(serverMessage, SendFailed));
      }
    }

    /** `subscribeToMessages`: with a selected user and a socket, installs a
        `newMessage` listener that remembers that user's id; otherwise does
        nothing. */
    method SubscribeToMessages(socket: Socket?)
      modifies socket
      ensures socket != null ==>
        socket.listeners == if selectedUser.Some?
          then old(socket.listeners) + [Listener(NewMessageEvent, AppendIfFrom(selectedUser.value.id))]
          else old(socket.listeners)
    {
      if selectedUser.None? {
        return;
      }
      if socket == null {
        return;
      }
      socket.On(NewMessageEvent, AppendIfFrom(selectedUser.value.id));
    }

    /** `unsubscribeFromMessages`: removes every `newMessage` listener from
        the socket, if there is one. */
    method UnsubscribeFromMessages(socket: Socket?)
      modifies socket
      ensures socket != null ==> socket.listeners == WithoutEvent(old(socket.listeners), NewMessageEvent)
    {
      if socket != null {
        socket.Off(NewMessageEvent);
      }
    }

    method SetSelectedUser(u: Option<User>)
      modifies this
      ensures selectedUser == u
      ensures messages == old(messages) && users == old(users)
      ensures isUsersLoading == old(isUsersLoading) && isMessagesLoading == old(isMessagesLoading)
    {
      selectedUser := u;
    }

    /** The body of the listener `subscribeToMessages` installs, for the
        user whose id was `selectedId` at that time: a message from anyone
        else is ignored. */
    method OnNewMessage(selectedId: string, m: Message)
      modifies this`messages
      ensures messages == if m.senderId == selectedId then old(messages) + [m] else old(messages)
    {
      if m.senderId != selectedId {
        return;
      }
      messages := messages + [m];
    }
  }

  /** The socket calling, in registration order, every listener it holds
      for a `newMessage` event carrying `m`; other listeners do not touch
      the chat store. */
  method EmitNewMessage(socket: Socket, store: Store, m: Message)
    modifies store`messages
    ensures store.messages == Deliver(old(store.messages), socket.listeners, m)
  {
    var ls := socket.listeners;
    var i := 0;
    while i < |ls|
      invariant 0 <= i <= |ls|
      invariant Deliver(old(store.messages), ls, m) == Deliver(store.messages, ls[i..], m)
    {
      assert ls[i..][0] == ls[i] && ls[i..][1..] == ls[i + 1..];
      var l := ls[i];
      if l.event == NewMessageEvent && l.handler.AppendIfFrom? {
        store.OnNewMessage(l.handler.senderId, m);
      }
      i := i + 1;
    }
  }
}

/** The store as the chat view drives it: open a conversation, subscribe,
    receive, and unsubscribe when the view is torn down. */
module ChatStoreClient {
  import opened Wrappers
  import opened ChatStore

  /** Messages from the selected user arrive while the view is open and are
      ignored once it has unsubscribed; messages from anyone else are never
      added, even after the selection moves on without unsubscribing. */
  method ConversationLifecycle(alice: User, bob: User, history: seq<Message>, fromAlice: Message, fromBob: Message)
    returns (seen: seq<Message>, afterClose: seq<Message>)
    requires alice.id != bob.id && fromAlice.senderId == alice.id && fromBob.senderId == bob.id
    ensures seen == history + [fromAlice]
    ensures afterClose == seen
  {
    var store := new Store();
    var socket := new Socket([]);
    store.SetSelectedUser(Some(alice));
    var _ := store.GetMessages(alice.id, Fetched(history));
    store.SubscribeToMessages(socket);
    // the listener keeps alice's id even when the selection changes
    store.SetSelectedUser(Some(bob));
    EmitNewMessage(socket, store, fromBob);
    assert Deliver(history, socket.listeners, fromBob) == history by {
      DeliveryExtends(history, socket.listeners, fromBob);
    }
    EmitNewMessage(socket, store, fromAlice);
    seen := store.messages;
    store.UnsubscribeFromMessages(socket);
    EmitNewMessage(socket, store, fromAlice);
    DeliverAfterOff(seen, [Listener(NewMessageEvent, AppendIfFrom(alice.id))], fromAlice);
    afterClose := store.messages;
  }
}
