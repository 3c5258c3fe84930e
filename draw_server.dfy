/** The server's per-connection read loop (`Server.connect` in
    pkg/draw/server.go): how each message read from one socket changes that
    connection's client and what it broadcasts to the room. */
module DrawServer {
  import opened Strings
  import opened DrawRoom

  /** Longest Text or ChangeUser payload relayed, in bytes. */
  const MaxTextLen := 65536

  const Newline: byte := 10

  /** A message decoded by `conn.ReadJSON`; the sender's `user` field is not
      read: the server stamps its own record of the user on what it relays. */
  datatype Incoming = Incoming(kind: int, text: Bytes)

  /** `strings.Split(text, "\n")` must give exactly two parts: name and color. */
  function ParseUser(text: Bytes): Option<User>
  {
    var parts := Split(text, Newline);
    if |parts| != 2 then None else Some(User(parts[0], parts[1]))
  }

  /** A payload is accepted exactly when it is one name, one newline and one
      color, neither containing a newline (either may be empty). */
  lemma ParseUserExact(text: Bytes, u: User)
    ensures ParseUser(text) == Some(u) <==>
      text == u.name + [Newline] + u.color && Newline !in u.name && Newline !in u.color
  {
    if Newline !in u.name && Newline !in u.color && text == u.name + [Newline] + u.color {
      SplitPair(u.name, u.color, Newline);
    }
    if ParseUser(text) == Some(u) {
      var parts := Split(text, Newline);
      JoinSplit(text, Newline);
      assert Join(parts, Newline) == parts[0] + [Newline] + Join(parts[1..], Newline);
    }
  }

  /** `msg.Text[0:maxTextLen]` when longer than `maxTextLen`, else the text. */
  function Truncate(text: Bytes): (r: Bytes)
    ensures |r| == if |text| > MaxTextLen then MaxTextLen else |text|
    ensures r == text[..|r|]
  {
    if |text| > MaxTextLen then text[..MaxTextLen] else text
  }

  /** What one message does to the connection. */
  datatype Action =
    | Ignore
    | Enter(user: User)                // enter the room as `user`
    | Relay(text: Bytes)               // broadcast a Text
    | Rename(text: Bytes, next: User)  // broadcast a ChangeUser, then become `next`

  /** The `switch msg.Type` of the read loop, given whether a Hello has set
      `client` and whether the rate limiter grants a token. */
  function Decide(msg: Incoming, joined: bool, allow: bool): (a: Action)
    ensures msg.kind !in {MsgHello, MsgText, MsgChangeUser} ==> a == Ignore
    ensures !joined || !allow ==> a.Ignore? || a.Enter?
    ensures a.Enter? ==> msg.kind == MsgHello
    ensures a.Enter? || a.Rename? ==>
      var u := if a.Enter? then a.user else a.next;
      msg.text == u.name + [Newline] + u.color && Newline !in u.name && Newline !in u.color
    ensures a.Relay? ==> msg.kind == MsgText
    ensures a.Rename? ==> msg.kind == MsgChangeUser
    ensures a.Relay? || a.Rename? ==>
      && (|msg.text| <= MaxTextLen ==> a.text == msg.text)
      && (|msg.text| > MaxTextLen ==> |a.text| == MaxTextLen)
      && a.text <= msg.text
    ensures msg.kind == MsgHello && ParseUser(msg.text).Some? ==>
      a == Enter(ParseUser(msg.text).value)
    ensures msg.kind == MsgText && joined && allow ==> a == Relay(Truncate(msg.text))
    ensures msg.kind == MsgChangeUser && ParseUser(msg.text).Some? && joined && allow ==>
      a == Rename(Truncate(msg.text), ParseUser(msg.text).value)
    ensures msg.kind in {MsgHello, MsgChangeUser} && ParseUser(msg.text).None? ==> a == Ignore
  {
    if msg.kind == MsgHello then
      match ParseUser(msg.text)
      case None => Ignore
      case Some(u) => ParseUserExact(msg.text, u); Enter(u)
    else if msg.kind == MsgText then
      if !joined || !allow then Ignore else Relay(Truncate(msg.text))
    else if msg.kind == MsgChangeUser then
      match ParseUser(msg.text)
      case None => Ignore
      case Some(u) =>
        ParseUserExact(msg.text, u);
        if !joined || !allow then Ignore else Rename(Truncate(msg.text), u)
    else Ignore
  }

  /** The state of one `Server.connect` call: its `client` variable (nil until
      a Hello) and whether the read loop has ended. */
  class Connection {
    const room: Room
    var client: Client?
    var closed: bool

    /** The client, once there is one, is in this connection's room or has left it. */
    ghost predicate Valid()
      reads this, client
    {
      client != null ==> client.room == room || client.room == null
    }

    constructor (rm: Room)
      ensures Valid()
      ensures room == rm && client == null && !closed
    {
      room := rm;
      client := null;
      closed := false;
    }

    /** One pass of the read loop for a message that decoded. A valid Hello
        enters the room as a new client (an earlier client of the same
        connection stays a member), broadcasts the Hello and then the roster.
        Text and ChangeUser need a client and a limiter token; ChangeUser is
        broadcast under the old user, who is renamed only afterwards (from
        the untruncated payload). A client that has left relays nothing. */
    method Dispatch(msg: Incoming, allow: bool)
      requires Valid() && !closed
      modifies this`client, room, client
      ensures Valid() && !closed
      ensures match Decide(msg, old(client) != null, allow)
        case Ignore =>
          && client == old(client)
          && unchanged(room)
          && (client != null ==> unchanged(client))
        case Enter(u) =>
          && fresh(client) && client.user == u && client.room == room
          && (old(client) != null ==>
                old(client).user == old(client.user) && old(client).room == old(client.room))
          && room.clientReceivers == old(room.clientReceivers) + {client}
          && |room.deliveries| == |old(room.deliveries)| + 2
          && room.deliveries[..|old(room.deliveries)|] == old(room.deliveries)
          && room.deliveries[|old(room.deliveries)|]
             == Delivery(Message(MsgHello, u, Raw(msg.text)), room.clientReceivers)
          && var roster := room.deliveries[|old(room.deliveries)| + 1];
             && roster.recipients == room.clientReceivers
             && roster.msg.kind == MsgPresentUsers && roster.msg.user == u
             && roster.msg.text.Roster?
             && exists order :: IsSnapshot(roster.msg.text.users, order, room.clientReceivers)
        case Relay(text) =>
          && client == old(client) && client.user == old(client.user)
          && client.room == old(client.room)
          && room.clientReceivers == old(room.clientReceivers)
          && room.deliveries == old(room.deliveries) +
               (if client.room == null then []
                else [Delivery(Message(MsgText, client.user, Raw(text)), room.clientReceivers)])
        case Rename(text, next) =>
          && client == old(client) && client.user == next
          && client.room == old(client.room)
          && room.clientReceivers == old(room.clientReceivers)
          && room.deliveries == old(room.deliveries) +
               (if client.room == null then []
                else [Delivery(Message(MsgChangeUser, old(client.user), Raw(text)), room.clientReceivers)])
    {
      if msg.kind == MsgHello {
        var parts := Split(msg.text, Newline);
        if |parts| != 2 {
          return;
        }
        var u := User(parts[0], parts[1]);
        client := room.Enter(u);
        var _ := client.Send(MsgHello, Raw(msg.text));
        var present;
        ghost var order;
        present, order := room.PresentUsers();
        var _ := client.Send(MsgPresentUsers, Roster(present));
        assert IsSnapshot(present, order, room.clientReceivers);
      } else if msg.kind == MsgText {
        if client == null {
          return;
        }
        if !allow {
          return;
        }
        var text := msg.text;
        if |text| > MaxTextLen {
          text := text[..MaxTextLen];
        }
        var _ := client.Send(MsgText, Raw(text));
      } else if msg.kind == MsgChangeUser {
        var parts := Split(msg.text, Newline);
        if |parts| != 2 {
          return;
        }
        if client == null {
          return;
        }
        if !allow {
          return;
        }
        var text := msg.text;
        if |text| > MaxTextLen {
          text := text[..MaxTextLen];
        }
        var _ := client.Send(MsgChangeUser, Raw(text));
        client.user := User(parts[0], parts[1]);
      }
    }

    /** A read error: leave the room if a Hello made this connection a
        member, and end the read loop. */
    method OnReadError()
      requires Valid() && !closed
      modifies this`closed, client, room
      ensures Valid() && closed
      ensures client == old(client)
      ensures client != null ==> client.user == old(client.user)
      ensures client == null ==> unchanged(room)
      ensures client != null ==> client.room == null && room.deliveries == old(room.deliveries)
      ensures client != null && old(client.room) != null ==>
        room.clientReceivers == old(room.clientReceivers) - {client}
      ensures client != null && old(client.room) == null ==> unchanged(room)
    {
      if client != null {
        var _ := client.Leave();
      }
      closed := true;
    }

    /** The keep-alive ping failing: leave the room if a member; the read
        loop itself goes on. */
    method OnPingError()
      requires Valid()
      modifies client, room
      ensures Valid()
      ensures client == old(client) && closed == old(closed)
      ensures client != null ==> client.user == old(client.user)
      ensures client == null ==> unchanged(room)
      ensures client != null ==> client.room == null && room.deliveries == old(room.deliveries)
      ensures client != null && old(client.room) != null ==>
        room.clientReceivers == old(room.clientReceivers) - {client}
      ensures client != null && old(client.room) == null ==> unchanged(room)
    {
      if client != null {
        var _ := client.Leave();
      }
    }
  }
}
