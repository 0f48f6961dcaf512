/**
 The network side of a client (network.js): the list of peer connections,
 the client's own peer id, broadcasting to the open connections, building
 the outgoing messages, and routing incoming messages onto the game world.
 */
module Network {
  import opened Entities
  import opened Game

  /** A connection to one peer. Only the connection library changes `open`. */
  class Connection {
    var open: bool

    constructor (open: bool)
      ensures this.open == open
    {
      this.open := open;
    }
  }

  /** One `conn.send(msg)` call. */
  datatype Sent = Sent(to: Connection, msg: Message)

  /** The sends a broadcast of `msg` makes: one per open connection, in list order. */
  function SendToOpen(conns: seq<Connection>, msg: Message): seq<Sent>
    reads conns
    decreases |conns|
  {
    if conns == [] then []
    else
      var last := conns[|conns| - 1];
      SendToOpen(conns[..|conns| - 1], msg) + if last.open then [Sent(last, msg)] else []
  }

  /** A broadcast reaches every open connection once per time it is listed,
      and no closed one; every send carries the broadcast message. */
  lemma {:induction false} SendToOpenExactlyOpen(conns: seq<Connection>, msg: Message)
    ensures forall s :: s in SendToOpen(conns, msg) ==> s.msg == msg && s.to.open && s.to in conns
    ensures forall c :: multiset(SendToOpen(conns, msg))[Sent(c, msg)] == if c.open then multiset(conns)[c] else 0
    decreases |conns|
  {
    if conns != [] {
      var init, last := conns[..|conns| - 1], conns[|conns| - 1];
      SendToOpenExactlyOpen(init, msg);
      assert conns == init + [last];
      assert multiset(conns) == multiset(init) + multiset{last};
    }
  }

  /** Broadcasting to a list that grew by one connection sends what the old
      list got, then one more send when the new connection is open. */
  lemma SendToOpenGrown(conns: seq<Connection>, c: Connection, msg: Message)
    ensures SendToOpen(conns + [c], msg) == SendToOpen(conns, msg) + if c.open then [Sent(c, msg)] else []
  {
    assert (conns + [c])[..|conns|] == conns;
  }

  /** The state of network.js: connections in the order they were pushed,
      this client's peer id once its peer has opened, every send made, and
      the sounds this file asked the UI to play. */
  class Session {
    var connections: seq<Connection>
    var playerId: Option<string>
    var log: seq<Sent>
    var sounds: seq<Sound>

    constructor ()
      ensures connections == [] && playerId == None && log == [] && sounds == []
    {
      connections := [];
      playerId := None;
      log := [];
      sounds := [];
    }

    /** The peer library has assigned this client its id. */
    method PeerOpened(id: string)
      modifies this
      ensures playerId == Some(id)
      ensures connections == old(connections) && log == old(log) && sounds == old(sounds)
    {
      playerId := Some(id);
    }

    /** A connection is added to the list; nothing ever removes one. */
    method AddConnection(conn: Connection)
      modifies this
      ensures connections == old(connections) + [conn]
      ensures playerId == old(playerId) && log == old(log) && sounds == old(sounds)
    {
      connections := connections + [conn];
    }

    /** A joiner's connection to the room opened: announce the join on it,
        then add it to the list. */
    method AnnounceJoin(conn: Connection, playerName: string)
      modifies this
      ensures log == old(log) + [Sent(conn, Join(playerId, playerName))]
      ensures connections == old(connections) + [conn]
      ensures playerId == old(playerId) && sounds == old(sounds)
    {
      log := log + [Sent(conn, Join(playerId, playerName))];
      connections := connections + [conn];
    }

    /** An incoming connection opened at the host: greet the joiner on it. */
    method SendWelcome(conn: Connection, playerName: string)
      modifies this
      ensures log == old(log) + [Sent(conn, Welcome(playerId, playerName))]
      ensures connections == old(connections) && playerId == old(playerId) && sounds == old(sounds)
    {
      log := log + [Sent(conn, Welcome(playerId, playerName))];
    }

    /** `broadcast(data)`: send to each listed connection whose `open` flag is set. */
    method Broadcast(msg: Message)
      modifies this
      ensures log == old(log) + SendToOpen(connections, msg)
      ensures connections == old(connections) && playerId == old(playerId) && sounds == old(sounds)
    {
      var conns := connections;
      var sends: seq<Sent> := [];
      var i := 0;
      while i < |conns|
        invariant 0 <= i <= |conns|
        invariant sends == SendToOpen(conns[..i], msg)
        invariant unchanged(this)
      {
        var conn := conns[i];
        SendToOpenGrown(conns[..i], conn, msg);
        assert conns[..i + 1] == conns[..i] + [conn];
        if conn.open {
          sends := sends + [Sent(conn, msg)];
        }
        i := i + 1;
      }
      assert conns[..|conns|] == conns;
      log := log + sends;
    }

    /** `sendPlayerState(x, y, angle)`: broadcast a `state` message under this client's id. */
    method SendPlayerState(x: real, y: real, angle: real)
      modifies this
      ensures log == old(log) + SendToOpen(connections, State(playerId, x, y, angle))
      ensures connections == old(connections) && playerId == old(playerId) && sounds == old(sounds)
    {
      Broadcast(State(playerId, x, y, angle));
    }

    /** `sendShoot(x, y, angle)`: broadcast a `shoot` message under this
        client's id, then play the shoot sound. */
    method SendShoot(x: real, y: real, angle: real)
      modifies this
      ensures log == old(log) + SendToOpen(connections, Shoot(playerId, x, y, angle))
      ensures sounds == old(sounds) + [ShootSound]
      ensures connections == old(connections) && playerId == old(playerId)
    {
      Broadcast(Shoot(playerId, x, y, angle));
      sounds := sounds + [ShootSound];
    }

    /** `handleNetworkData(data)`: route a message by its type onto the world.
        `rx`, `ry` and `color` are the random draws a `join` would use. */
    method HandleNetworkData(w: World, data: Message, rx: real, ry: real, color: string)
      requires w.Valid()
      requires 0.0 <= rx < 1.0 && 0.0 <= ry < 1.0
      modifies this, w
      ensures w.Valid()
      ensures w.local == old(w.local) && w.outbox == old(w.outbox)
      ensures connections == old(connections) && playerId == old(playerId) && log == old(log)
      ensures data.Join? ==>
        && w.players == Admit(old(w.players), data.id, data.name, rx, ry, color)
        && w.order == AdmitOrder(old(w.players), old(w.order), data.id)
        && w.bullets == old(w.bullets)
      ensures data.State? ==>
        && w.players == Reposition(old(w.players), data.id, data.x, data.y, data.angle)
        && w.order == old(w.order) && w.bullets == old(w.bullets)
      ensures data.Shoot? ==>
        && w.bullets == old(w.bullets) + [Bullet(data.x, data.y, data.angle, BulletSpeed, data.id)]
        && w.players == old(w.players) && w.order == old(w.order)
      ensures !(data.Join? || data.State? || data.Shoot?) ==>
        && w.players == old(w.players) && w.order == old(w.order) && w.bullets == old(w.bullets)
      ensures sounds == old(sounds) + if data.Hit? then [HitSound] else []
    {
      match data
      case Join(id, name) =>
        w.AddRemotePlayer(id, name, rx, ry, color);
      case State(id, x, y, angle) =>
        w.UpdateRemotePlayer(id, x, y, angle);
      case Shoot(id, x, y, angle) =>
        w.SpawnRemoteBullet(id, x, y, angle);
      case Hit(_) =>
        sounds := sounds + [HitSound];
      case _ =>
    }
  }
}
