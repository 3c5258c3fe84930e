/** The server's room bookkeeping (pkg/draw): the message, user and error
    types, a `Room` holding its member clients, and the `Client` operations
    that broadcast into it and leave it. */
module DrawRoom {
  import opened Strings

  /** Go strings are byte strings. */
  newtype byte = x: int | 0 <= x < 256
  type Bytes = seq<byte>

  // Message types (message.go), shared with the drawing client
  const MsgHello := 0
  const MsgText := 1
  const MsgChangeUser := 2
  const MsgPresentUsers := 3
  const MsgEmptyCanvas := 4

  datatype User = User(name: Bytes, color: Bytes)

  datatype Error = Error(reason: string)

  const NotInRoom := Error("client is not in a room yet")

  /** The `text` of an outgoing message: bytes, or the JSON array of a roster. */
  datatype Payload = Raw(text: Bytes) | Roster(users: seq<User>)

  datatype Message = Message(kind: int, user: User, text: Payload)

  /** One broadcast: the message and the members it was handed to. */
  datatype Delivery = Delivery(msg: Message, recipients: set<Client>)

  /** `users` lists the user of each client in `order`, and `order` lists
      every member of `members` exactly once. */
  ghost predicate IsSnapshot(users: seq<User>, order: seq<Client>, members: set<Client>)
    reads set c | c in order
  {
    && |users| == |order|
    && (forall i :: 0 <= i < |order| ==> users[i] == order[i].user)
    && (forall i, j :: 0 <= i < j < |order| ==> order[i] != order[j])
    && (forall i :: 0 <= i < |order| ==> order[i] in members)
    && (forall c :: c in members ==> c in order)
  }

  class Room {
    /** The keys of `clientReceivers`; each member's channel is not modelled. */
    var clientReceivers: set<Client>
    /** Every broadcast so far, oldest first. */
    var deliveries: seq<Delivery>

    /** `NewRoom()`: no members. */
    constructor ()
      ensures clientReceivers == {} && deliveries == []
    {
      clientReceivers := {};
      deliveries := [];
    }

    /** `Enter(u)`: one new client, in this room, with user `u`. */
    method Enter(u: User) returns (client: Client)
      modifies this`clientReceivers
      ensures fresh(client)
      ensures client.user == u && client.room == this
      ensures clientReceivers == old(clientReceivers) + {client}
      ensures client !in old(clientReceivers)
    {
      client := new Client(u, this);
      clientReceivers := clientReceivers + {client};
    }

    /** `Broadcast(msg)`: handed to every member, the sender included. */
    method Broadcast(msg: Message)
      modifies this`deliveries
      ensures deliveries == old(deliveries) + [Delivery(msg, clientReceivers)]
    {
      deliveries := deliveries + [Delivery(msg, clientReceivers)];
    }

    /** `PresentUsers()`: one user per member, in the map's (unspecified)
        iteration order; `order` names the member behind each user. */
    method PresentUsers() returns (users: seq<User>, ghost order: seq<Client>)
      ensures |users| == |clientReceivers|
      ensures clientReceivers == {} ==> users == []
      ensures IsSnapshot(users, order, clientReceivers)
    {
      var rest := clientReceivers;
      users := [];
      order := [];
      while rest != {}
        invariant rest <= clientReceivers
        invariant |users| == |order|
        invariant |users| + |rest| == |clientReceivers|
        invariant forall i :: 0 <= i < |order| ==> users[i] == order[i].user
        invariant forall i, j :: 0 <= i < j < |order| ==> order[i] != order[j]
        invariant forall i :: 0 <= i < |order| ==> order[i] in clientReceivers && order[i] !in rest
        invariant forall c :: c in clientReceivers ==> c in rest || c in order
        decreases rest
      {
        var client :| client in rest;
        users := users + [client.user];
        order := order + [client];
        rest := rest - {client};
      }
    }
  }

  class Client {
    /** The client's own user; `Enter` stores it behind a pointer, so renames
        through it are what `PresentUsers` later reads. */
    var user: User
    var room: Room?

    constructor (u: User, rm: Room)
      ensures user == u && room == rm
    {
      user := u;
      room := rm;
    }

    /** `Send(kind, text)`: broadcast `{kind, user, text}` to the room, or fail
        when not in one. The declaration in client.go takes only the text and
        always sends a Text message; every caller in server.go passes the type
        first, and this follows the callers. */
    method Send(kind: int, text: Payload) returns (err: Option<Error>)
      modifies room
      ensures room == old(room)
      ensures room == null ==> err == Some(NotInRoom)
      ensures room != null ==>
        && err.None?
        && room.deliveries == old(room.deliveries) + [Delivery(Message(kind, user, text), room.clientReceivers)]
        && room.clientReceivers == old(room.clientReceivers)
    {
      if room == null {
        return Some(NotInRoom);
      }
      room.Broadcast(Message(kind, user, text));
      return None;
    }

    /** `Leave()`: drop this client from its room and forget the room; a
        client in no room gets an error and nothing changes. */
    method Leave() returns (err: Option<Error>)
      modifies this`room, room
      ensures room == null
      ensures old(room) == null ==> err == Some(NotInRoom)
      ensures old(room) != null ==>
        && err.None?
        && old(room).clientReceivers == old(room.clientReceivers) - {this}
        && old(room).deliveries == old(room.deliveries)
    {
      if room == null {
        return Some(NotInRoom);
      }
      room.clientReceivers := room.clientReceivers - {this};
      room := null;
      return None;
    }
  }
}
