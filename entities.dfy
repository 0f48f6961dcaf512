/**
 The values the game world is made of: players, bullets, the messages peers
 exchange, and the invariant every remote-player record keeps.
 */
module Entities {

  datatype Option<+T> = None | Some(value: T)

  /** A player record. `id` is whatever the creating call was given: the local
      player starts with `null`, a remote one with the id a peer reported,
      which may be `undefined`; both are `None` here. */
  datatype Player = Player(
    id: Option<string>,
    name: string,
    x: real,
    y: real,
    angle: real,
    alive: bool,
    health: int,
    score: int,
    color: string)

  /** A bullet. `owner` is `None` when the firing code had no id to give. */
  datatype Bullet = Bullet(x: real, y: real, angle: real, speed: real, owner: Option<string>)

  /** The messages peers send each other; `Unknown` stands for any other `type` tag. */
  datatype Message =
    | Join(id: Option<string>, name: string)
    | Welcome(id: Option<string>, name: string)
    | State(id: Option<string>, x: real, y: real, angle: real)
    | Shoot(id: Option<string>, x: real, y: real, angle: real)
    | Hit(id: Option<string>)
    | Unknown(tag: string)

  datatype Sound = ShootSound | HitSound

  const FullHealth: int := 100
  const Damage: int := 25
  const BulletSpeed: real := 7.0

  /** The property name a JavaScript object lookup `players[id]` uses:
      a string is its own key and `undefined` becomes "undefined". */
  function KeyOf(id: Option<string>): (k: string)
    ensures id.Some? ==> k == id.value
    ensures id.None? ==> k == "undefined"
  {
    match id
    case Some(s) => s
    case None => "undefined"
  }

  /** What the coercion means for the registry: distinct string ids get
      distinct keys, but a missing id shares its key with the string
      "undefined", so such a player and a peer whose id is "undefined" share
      one entry. */
  lemma KeyOfCollides()
    ensures KeyOf(None) == KeyOf(Some("undefined"))
    ensures forall a, b :: KeyOf(Some(a)) == KeyOf(Some(b)) ==> a == b
    ensures forall id :: KeyOf(id) == "undefined" <==> id == None || id == Some("undefined")
  {
  }

  /** Health moves in steps of 25 between 0 and 100, and a player is alive
      exactly while its health is positive. */
  predicate HealthOk(p: Player) {
    0 <= p.health <= FullHealth && p.health % Damage == 0 && (p.alive <==> p.health > 0)
  }

  predicate NoDup<T(==)>(s: seq<T>) {
    forall i, j :: 0 <= i < j < |s| ==> s[i] != s[j]
  }

  /** The invariant of the remote-player registry: `order` lists every key
      exactly once (the order `for ... in` visits them), each entry is filed
      under the key of its own id, and each entry's health is well formed. */
  predicate RegistryOk(players: map<string, Player>, order: seq<string>) {
    && NoDup(order)
    && (forall k :: k in order ==> k in players)
    && (forall k :: k in players ==> k in order)
    && (forall k :: k in players ==> KeyOf(players[k].id) == k && HealthOk(players[k]))
  }

  /** The record `addRemotePlayer` creates: position drawn from `rx`, `ry` in [0, 1). */
  function NewRemotePlayer(id: Option<string>, name: string, rx: real, ry: real, color: string): (p: Player)
    requires 0.0 <= rx < 1.0 && 0.0 <= ry < 1.0
    ensures p.id == id && p.name == name && p.color == color
    ensures 0.0 <= p.x < 500.0 && 0.0 <= p.y < 500.0
    ensures p.angle == 0.0 && p.alive && p.health == FullHealth && p.score == 0
    ensures HealthOk(p)
  {
    Player(id, name, rx * 500.0, ry * 500.0, 0.0, true, FullHealth, 0, color)
  }

  /** `respawnPlayer`: a random position on the canvas, full health, alive;
      name, angle, score and colour are kept. */
  function Respawn(p: Player, rx: real, ry: real, width: nat, height: nat): (r: Player)
    ensures HealthOk(r) && r.alive && r.health == FullHealth
    ensures r.id == p.id && r.name == p.name && r.angle == p.angle
    ensures r.score == p.score && r.color == p.color
  {
    p.(x := rx * width as real, y := ry * height as real, alive := true, health := FullHealth)
  }

  /** With random draws in [0, 1) the respawn position is on the canvas. */
  lemma RespawnOnCanvas(p: Player, rx: real, ry: real, width: nat, height: nat)
    requires 0.0 <= rx < 1.0 && 0.0 <= ry < 1.0
    ensures var r := Respawn(p, rx, ry, width, height);
      && 0.0 <= r.x <= width as real && 0.0 <= r.y <= height as real
      && (width > 0 ==> r.x < width as real)
      && (height > 0 ==> r.y < height as real)
  {
    var r := Respawn(p, rx, ry, width, height);
    Scaled(rx, width);
    assert r.x == rx * width as real;
    Scaled(ry, height);
    assert r.y == ry * height as real;
  }

  /** `Math.random() * n` lies in [0, n], and below `n` when `n` is positive. */
  lemma Scaled(r: real, n: nat)
    requires 0.0 <= r < 1.0
    ensures 0.0 <= r * n as real <= n as real
    ensures 0 < n ==> r * n as real < n as real
  {
    var w := n as real;
    assert w - r * w == (1.0 - r) * w;
  }
}
