/** The server's shared state and its event handlers: the user-count and
    earnings ticks, the two broadcasts, and the connection and close handlers.
    The module-level variables of the server become the fields of one
    `ServerState` object; every random draw is a parameter of the tick that
    makes it; every broadcast returns the `send` calls it makes, in order. */
module Server {
  import OnlineUsers
  import Earnings
  import opened Connections

  /** The fixed title carried by every earnings message. */
  const Title := "Today's earnings chart"

  /** A message as the server sends it, without its timestamp. */
  datatype Message =
    | OnlineUsersMessage(count: int)
    | EarningsDataMessage(data: seq<Earnings.Entry>, title: string)

  /** The ranking the server starts with. */
  const InitialEarnings: seq<Earnings.Entry> := [
    Earnings.Entry(1, "WIGHT #", 15000),
    Earnings.Entry(2, "Merr**RSY", 11000),
    Earnings.Entry(3, "Merr**IUC", 10000),
    Earnings.Entry(4, "Merr**CPF", 10000),
    Earnings.Entry(5, "Merr**BGX", 6000),
    Earnings.Entry(6, "Merr**O9L", 10000),
    Earnings.Entry(7, "Man****av", 3000)
  ]

  /** The initial ranking respects the floor and the length bound, but it is not
      sorted: entry 5 (6000) comes before entry 6 (10000). Sortedness is only
      established by the first earnings tick. */
  lemma InitialEarningsShape()
    ensures Earnings.AllAtLeastMin(InitialEarnings)
    ensures |InitialEarnings| <= Earnings.MaxEntries
    ensures !Earnings.Sorted(InitialEarnings)
  {
    assert InitialEarnings[4].amount < InitialEarnings[5].amount;
  }

  class ServerState {
    var onlineUsers: int
    var earningsData: seq<Earnings.Entry>
    /** The registered clients, in insertion order. */
    var clients: seq<Socket>
    /** Whether an earnings tick has run; the initial ranking is not sorted. */
    ghost var ranked: bool

    ghost predicate Valid()
      reads this
    {
      && OnlineUsers.MinUsers <= onlineUsers <= OnlineUsers.MaxUsers
      && Earnings.AllAtLeastMin(earningsData)
      && |earningsData| <= Earnings.MaxEntries
      && (ranked ==> Earnings.Sorted(earningsData))
      && NoDuplicates(clients)
    }

    /** The state before any tick and before any client has connected. */
    constructor ()
      ensures Valid()
      ensures onlineUsers == OnlineUsers.InitialUsers && earningsData == InitialEarnings
      ensures clients == [] && !ranked
    {
      onlineUsers := OnlineUsers.InitialUsers;
      earningsData := InitialEarnings;
      clients := [];
      ranked := false;
      InitialEarningsShape();
    }

    /** Sends `message` to every registered client whose state is `Open`, in
        registry order; `sends` are the `send` calls made. */
    method BroadcastToClients(message: Message) returns (sends: seq<Delivery<Message>>)
      ensures sends == Sends(clients, message)
    {
      sends := [];
      var i := 0;
      while i < |clients|
        invariant 0 <= i <= |clients|
        invariant sends == Sends(clients[..i], message)
      {
        var client := clients[i];
        assert clients[..i + 1][..i] == clients[..i];
        if client.readyState == Open {
          sends := sends + [Delivery(client, message)];
        }
        i := i + 1;
      }
      assert clients[..i] == clients;
    }

    /** Broadcasts the current user count. */
    method BroadcastOnlineUsers() returns (sends: seq<Delivery<Message>>)
      ensures sends == Sends(clients, OnlineUsersMessage(onlineUsers))
    {
      sends := BroadcastToClients(OnlineUsersMessage(onlineUsers));
    }

    /** Broadcasts the current ranking with its title. */
    method BroadcastEarningsData() returns (sends: seq<Delivery<Message>>)
      ensures sends == Sends(clients, EarningsDataMessage(earningsData, Title))
    {
      sends := BroadcastToClients(EarningsDataMessage(earningsData, Title));
    }

    /** One user-count tick that drew `change`: add it, clamp, broadcast. */
    method UpdateUserCount(change: int) returns (sends: seq<Delivery<Message>>)
      requires Valid()
      requires OnlineUsers.AdmissibleChange(change)
      modifies this`onlineUsers
      ensures Valid()
      ensures onlineUsers == OnlineUsers.Step(old(onlineUsers), change)
      ensures sends == Sends(clients, OnlineUsersMessage(onlineUsers))
    {
      onlineUsers := onlineUsers + change;
      onlineUsers := OnlineUsers.Clamp(onlineUsers);
      sends := BroadcastOnlineUsers();
    }

    /** One earnings tick under the draws `draws` (one per entry) and `add`:
        update, maybe push, sort, truncate, broadcast. */
    method UpdateEarningsData(draws: seq<Earnings.EntryDraw>, add: Earnings.AppendDraw)
      returns (sends: seq<Delivery<Message>>)
      requires Valid()
      requires |draws| == |earningsData|
      requires forall i :: 0 <= i < |draws| ==> Earnings.AdmissibleEntryDraw(draws[i])
      requires Earnings.AdmissibleAppendDraw(add)
      modifies this`earningsData, this`ranked
      ensures Valid() && ranked
      ensures earningsData == Earnings.Tick(old(earningsData), draws, add)
      ensures sends == Sends(clients, EarningsDataMessage(earningsData, Title))
    {
      var data := Earnings.UpdateAll(earningsData, draws);
      if add.Entrant? {
        var newId := |data| + 1;
        data := data + [Earnings.Entry(newId, add.name, add.amount)];
      }
      assert data == Earnings.Staged(earningsData, draws, add);
      data := Earnings.SortByAmount(data);
      if |data| > Earnings.MaxEntries {
        data := data[..Earnings.MaxEntries];
      }
      assert data == Earnings.Tick(earningsData, draws, add);
      Earnings.TickKeepsFloor(earningsData, draws, add);
      earningsData := data;
      ranked := true;
      sends := BroadcastEarningsData();
    }

    /** Process start: one user-count tick, then one earnings tick. */
    method Start(change: int, draws: seq<Earnings.EntryDraw>, add: Earnings.AppendDraw)
      returns (sends: seq<Delivery<Message>>)
      requires Valid()
      requires OnlineUsers.AdmissibleChange(change)
      requires |draws| == |earningsData|
      requires forall i :: 0 <= i < |draws| ==> Earnings.AdmissibleEntryDraw(draws[i])
      requires Earnings.AdmissibleAppendDraw(add)
      modifies this`onlineUsers, this`earningsData, this`ranked
      ensures Valid() && ranked
      ensures onlineUsers == OnlineUsers.Step(old(onlineUsers), change)
      ensures earningsData == Earnings.Tick(old(earningsData), draws, add)
      ensures sends == Sends(clients, OnlineUsersMessage(onlineUsers))
                       + Sends(clients, EarningsDataMessage(earningsData, Title))
    {
      var counts := UpdateUserCount(change);
      var rankings := UpdateEarningsData(draws, add);
      assert counts == Sends(clients, OnlineUsersMessage(onlineUsers));
      sends := counts + rankings;
    }

    /** A new connection: register it, then send the count snapshot and then the
        earnings snapshot to every open client, the new one included. */
    method OnConnection(ws: Socket) returns (sends: seq<Delivery<Message>>)
      requires Valid()
      modifies this`clients
      ensures Valid()
      ensures clients == Added(old(clients), ws)
      ensures sends == Sends(clients, OnlineUsersMessage(onlineUsers))
                       + Sends(clients, EarningsDataMessage(earningsData, Title))
      ensures Received(sends, ws) ==
              if ws.readyState == Open
              then [OnlineUsersMessage(onlineUsers), EarningsDataMessage(earningsData, Title)]
              else []
    {
      clients := Added(clients, ws);
      var counts := BroadcastOnlineUsers();
      var rankings := BroadcastEarningsData();
      sends := counts + rankings;
      ReceivedFromTwoBroadcasts(clients, OnlineUsersMessage(onlineUsers),
                                EarningsDataMessage(earningsData, Title), ws);
    }

    /** A closed connection: unregister it. */
    method OnClose(ws: Socket)
      requires Valid()
      modifies this`clients
      ensures Valid()
      ensures clients == Removed(old(clients), ws)
    {
      clients := Removed(clients, ws);
    }
  }

  /** A client that connects and is then unregistered receives the two snapshots
      and nothing from the ticks that follow, although its socket is still open. */
  method DisconnectScenario(draws: seq<Earnings.EntryDraw>)
      returns (ws: Socket, snapshots: seq<Delivery<Message>>, later: seq<Delivery<Message>>)
    requires |draws| == |InitialEarnings|
    requires forall i :: 0 <= i < |draws| ==> Earnings.AdmissibleEntryDraw(draws[i])
    ensures ws.readyState == Open
    ensures Received(snapshots, ws) ==
            [OnlineUsersMessage(OnlineUsers.InitialUsers), EarningsDataMessage(InitialEarnings, Title)]
    ensures Received(later, ws) == []
  {
    var server := new ServerState();
    ws := new Socket(Open);
    snapshots := server.OnConnection(ws);
    server.OnClose(ws);
    var counts := server.UpdateUserCount(OnlineUsers.MinChange);
    var rankings := server.UpdateEarningsData(draws, Earnings.NoEntrant);
    later := counts + rankings;
    ReceivedFromTwoBroadcasts(server.clients, OnlineUsersMessage(server.onlineUsers),
                              EarningsDataMessage(server.earningsData, Title), ws);
  }
}
