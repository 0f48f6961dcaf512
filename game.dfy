/**
 The per-client game world of main.js: the remote-player registry, the
 bullet list and the local player, and the operations that change them in
 place.
 */
module Game {
  import opened Entities
  import opened Movement
  import opened Combat

  /** What main.js reads as `Network.playerId`: the network file exports the
      variable's value once, at load time, before any peer has opened, so the
      exported copy is `undefined` for good. */
  const ExportedPlayerId: Option<string> := None

  /** A call main.js makes out of the game state: a sound to play, a shot to
      announce through `Network.sendShoot`, or a message to `Network.broadcast`. */
  datatype Effect =
    | PlaySound(sound: Sound)
    | SendShoot(x: real, y: real, angle: real)
    | Broadcast(msg: Message)

  /** A direction: the joystick vector, or `(cos a, sin a)` for an angle `a`. */
  datatype Vec = Vec(dx: real, dy: real)

  /** The calls one hit pass makes for its kills, two per kill: the hit
      sound, then the `hit` broadcast naming the victim. */
  function KillEffects(kills: seq<string>): seq<Effect>
    decreases |kills|
  {
    if kills == [] then []
    else KillEffects(kills[..|kills| - 1]) + [PlaySound(HitSound), Broadcast(Hit(Some(kills[|kills| - 1])))]
  }

  /** Exactly two calls per kill, in kill order: the sound, then the `hit`
      message naming that kill. */
  lemma {:induction false} KillEffectsShape(kills: seq<string>)
    ensures |KillEffects(kills)| == 2 * |kills|
    ensures forall i :: 0 <= i < |kills| ==>
      KillEffects(kills)[2 * i] == PlaySound(HitSound) && KillEffects(kills)[2 * i + 1] == Broadcast(Hit(Some(kills[i])))
    decreases |kills|
  {
    if kills != [] {
      KillEffectsShape(kills[..|kills| - 1]);
    }
  }

  lemma {:induction false} KillEffectsAppend(a: seq<string>, b: seq<string>)
    ensures KillEffects(a + b) == KillEffects(a) + KillEffects(b)
    decreases |b|
  {
    if b == [] {
      assert a + b == a;
    } else {
      var init, last := b[..|b| - 1], b[|b| - 1];
      var ab := a + b;
      assert ab[..|ab| - 1] == a + init && ab[|ab| - 1] == last;
      KillEffectsAppend(a, init);
    }
  }

  lemma SeqAssoc<T>(a: seq<T>, b: seq<T>, c: seq<T>)
    ensures a + b + c == a + (b + c)
  {
  }

  /** `addRemotePlayer` on the registry: an existing entry for the id's key
      stays as it is; otherwise exactly one fresh entry is added. */
  function Admit(ps: map<string, Player>, id: Option<string>, name: string, rx: real, ry: real, color: string): (r: map<string, Player>)
    requires 0.0 <= rx < 1.0 && 0.0 <= ry < 1.0
    ensures KeyOf(id) in ps ==> r == ps
    ensures KeyOf(id) !in ps ==> r.Keys == ps.Keys + {KeyOf(id)} && |r| == |ps| + 1
    ensures forall k :: k in ps ==> r[k] == ps[k]
    ensures KeyOf(id) !in ps ==>
      var p := r[KeyOf(id)];
      p.id == id && p.name == name && p.angle == 0.0 && p.alive && p.health == 100 && p.score == 0
  {
    if KeyOf(id) in ps then ps else ps[KeyOf(id) := NewRemotePlayer(id, name, rx, ry, color)]
  }

  /** `updateRemotePlayer` on the registry: an unknown id changes nothing;
      a known one has only its position and angle overwritten. */
  function Reposition(ps: map<string, Player>, id: Option<string>, x: real, y: real, angle: real): (r: map<string, Player>)
    ensures r.Keys == ps.Keys
    ensures KeyOf(id) !in ps ==> r == ps
    ensures forall k :: k in ps && k != KeyOf(id) ==> r[k] == ps[k]
    ensures KeyOf(id) in ps ==>
      var p, q := ps[KeyOf(id)], r[KeyOf(id)];
      q.x == x && q.y == y && q.angle == angle
      && q.id == p.id && q.name == p.name && q.alive == p.alive && q.health == p.health
      && q.score == p.score && q.color == p.color
  {
    var k := KeyOf(id);
    if k in ps then ps[k := ps[k].(x := x, y := y, angle := angle)] else ps
  }

  /** The keys visited by `for ... in` after `addRemotePlayer`: a new key goes last. */
  function AdmitOrder(ps: map<string, Player>, order: seq<string>, id: Option<string>): (r: seq<string>)
    ensures KeyOf(id) in ps ==> r == order
    ensures KeyOf(id) !in ps ==> |r| == |order| + 1 && r[..|order|] == order && r[|order|] == KeyOf(id)
  {
    if KeyOf(id) in ps then order else order + [KeyOf(id)]
  }

  /** `addRemotePlayer` keeps the registry well formed. */
  lemma AdmitKeepsRegistry(ps: map<string, Player>, order: seq<string>, id: Option<string>, name: string, rx: real, ry: real, color: string)
    requires RegistryOk(ps, order)
    requires 0.0 <= rx < 1.0 && 0.0 <= ry < 1.0
    ensures RegistryOk(Admit(ps, id, name, rx, ry, color), AdmitOrder(ps, order, id))
  {
    var k := KeyOf(id);
    if k !in ps {
      var o := order + [k];
      var r := ps[k := NewRemotePlayer(id, name, rx, ry, color)];
      assert Admit(ps, id, name, rx, ry, color) == r;
      assert AdmitOrder(ps, order, id) == o;
      forall i, j | 0 <= i < j < |o| ensures o[i] != o[j] {
        if j == |order| {
          assert o[i] in order;
        }
      }
      forall q | q in o ensures q in r {
        if q != k {
          assert q in order;
        }
      }
      forall q | q in r ensures q in o && KeyOf(r[q].id) == q && HealthOk(r[q]) {
        if q != k {
          assert q in ps;
        }
      }
    }
  }

  /** `updateBullets` moving one bullet: `speed` along the unit vector
      `trig(angle)`, which stands for `(Math.cos(angle), Math.sin(angle))`. */
  function Advance(b: Bullet, trig: real -> Vec): Bullet {
    b.(x := b.x + trig(b.angle).dx * b.speed, y := b.y + trig(b.angle).dy * b.speed)
  }

  /** Every bullet of `bs` advanced once. */
  function Moved(bs: seq<Bullet>, trig: real -> Vec): seq<Bullet> {
    seq(|bs|, i requires 0 <= i < |bs| => Advance(bs[i], trig))
  }

  /** Strictly inside the canvas: the test `updateBullets` filters on. */
  predicate Inside(b: Bullet, width: nat, height: nat) {
    0.0 < b.x < width as real && 0.0 < b.y < height as real
  }

  /** The bullets of `bs` that are inside the canvas, in their order. */
  function KeepInside(bs: seq<Bullet>, width: nat, height: nat): (r: seq<Bullet>)
    decreases |bs|
  {
    if bs == [] then []
    else
      var init := bs[..|bs| - 1];
      var last := bs[|bs| - 1];
      assert bs == init + [last];
      KeepInside(init, width, height) + if Inside(last, width, height) then [last] else []
  }

  /** The filter keeps a bullet exactly when it was in the list and is
      strictly inside the canvas, and never lengthens the list. */
  lemma {:induction false} KeepInsideMembers(bs: seq<Bullet>, width: nat, height: nat)
    ensures |KeepInside(bs, width, height)| <= |bs|
    ensures forall b :: b in KeepInside(bs, width, height) <==> b in bs && Inside(b, width, height)
    decreases |bs|
  {
    if bs != [] {
      var init := bs[..|bs| - 1];
      KeepInsideMembers(init, width, height);
      assert bs == init + [bs[|bs| - 1]];
    }
  }

  /** Filtering a concatenation filters each part and keeps them in order,
      so the survivors keep their relative order. */
  lemma {:induction false} KeepInsideAppend(a: seq<Bullet>, b: seq<Bullet>, width: nat, height: nat)
    ensures KeepInside(a + b, width, height) == KeepInside(a, width, height) + KeepInside(b, width, height)
    decreases |b|
  {
    if b == [] {
      assert a + b == a;
    } else {
      var init, last := b[..|b| - 1], b[|b| - 1];
      var ab := a + b;
      assert ab[..|ab| - 1] == a + init && ab[|ab| - 1] == last;
      KeepInsideAppend(a, init, width, height);
    }
  }

  /** A filtered list is left alone by the next filter with the same canvas. */
  lemma {:induction false} KeepInsideIdempotent(bs: seq<Bullet>, width: nat, height: nat)
    ensures KeepInside(KeepInside(bs, width, height), width, height) == KeepInside(bs, width, height)
    decreases |bs|
  {
    if bs != [] {
      var init := bs[..|bs| - 1];
      var last := bs[|bs| - 1];
      var k := KeepInside(init, width, height);
      KeepInsideIdempotent(init, width, height);
      if Inside(last, width, height) {
        assert KeepInside(bs, width, height) == k + [last];
        KeepInsideAppend(k, [last], width, height);
        assert KeepInside([last], width, height) == [last] by {
          assert [last][..0] == [];
        }
      } else {
        assert KeepInside(bs, width, height) == k;
      }
    }
  }

  /** One axis of `moveLocalPlayer` before clamping: a key or the stick past
      the dead zone in each direction. */
  function AxisStep(held: set<string>, negKey: string, posKey: string, stick: real): real {
    Step(negKey in held || stick < -StickThreshold, posKey in held || StickThreshold < stick, LocalSpeed)
  }

  class World {
    /** Remote players by the key of their id. */
    var players: map<string, Player>
    /** The keys of `players` in insertion order, the order `for ... in` visits them. */
    var order: seq<string>
    var bullets: seq<Bullet>
    var local: Player
    /** Calls made to the UI and the network, oldest first. */
    var outbox: seq<Effect>

    ghost predicate Valid()
      reads this
    {
      RegistryOk(players, order)
    }

    /** The state at page load: random position in [100, 600) x [100, 400). */
    constructor (rx: real, ry: real, color: string)
      requires 0.0 <= rx < 1.0 && 0.0 <= ry < 1.0
      ensures Valid()
      ensures players == map[] && order == [] && bullets == [] && outbox == []
      ensures local == Player(None, "", rx * 500.0 + 100.0, ry * 300.0 + 100.0, 0.0, true, FullHealth, 0, color)
    {
      players := map[];
      order := [];
      bullets := [];
      local := Player(None, "", rx * 500.0 + 100.0, ry * 300.0 + 100.0, 0.0, true, FullHealth, 0, color);
      outbox := [];
    }

    /** `addRemotePlayer(id, name)`, with the random position and colour given. */
    method AddRemotePlayer(id: Option<string>, name: string, rx: real, ry: real, color: string)
      requires Valid()
      requires 0.0 <= rx < 1.0 && 0.0 <= ry < 1.0
      modifies this
      ensures Valid()
      ensures players == Admit(old(players), id, name, rx, ry, color)
      ensures order == AdmitOrder(old(players), old(order), id)
      ensures bullets == old(bullets) && local == old(local) && outbox == old(outbox)
    {
      AdmitKeepsRegistry(players, order, id, name, rx, ry, color);
      var k := KeyOf(id);
      if k !in players {
        players := players[k := NewRemotePlayer(id, name, rx, ry, color)];
        order := order + [k];
      }
    }

    /** `updateRemotePlayer(id, x, y, angle)`. */
    method UpdateRemotePlayer(id: Option<string>, x: real, y: real, angle: real)
      requires Valid()
      modifies this
      ensures Valid()
      ensures players == Reposition(old(players), id, x, y, angle)
      ensures order == old(order) && bullets == old(bullets) && local == old(local) && outbox == old(outbox)
    {
      var k := KeyOf(id);
      if k in players {
        players := players[k := players[k].(x := x, y := y, angle := angle)];
      }
    }

    /** `spawnRemoteBullet(id, x, y, angle)`: the owner is whatever id the message carried. */
    method SpawnRemoteBullet(id: Option<string>, x: real, y: real, angle: real)
      requires Valid()
      modifies this
      ensures Valid()
      ensures bullets == old(bullets) + [Bullet(x, y, angle, BulletSpeed, id)]
      ensures players == old(players) && order == old(order) && local == old(local) && outbox == old(outbox)
    {
      bullets := bullets + [Bullet(x, y, angle, BulletSpeed, id)];
    }

    /** `shootBullet`: nothing while dead; otherwise a bullet from the local
        player's position and angle, owned by the exported id, then the shoot
        sound and the shot announced to the peers. */
    method ShootBullet()
      requires Valid()
      modifies this
      ensures Valid()
      ensures players == old(players) && order == old(order) && local == old(local)
      ensures !local.alive ==> bullets == old(bullets) && outbox == old(outbox)
      ensures local.alive ==>
        && bullets == old(bullets) + [Bullet(local.x, local.y, local.angle, BulletSpeed, ExportedPlayerId)]
        && outbox == old(outbox) + [PlaySound(ShootSound), SendShoot(local.x, local.y, local.angle)]
    {
      if !local.alive {
        return;
      }
      var bullet := Bullet(local.x, local.y, local.angle, BulletSpeed, ExportedPlayerId);
      bullets := bullets + [bullet];
      outbox := outbox + [PlaySound(ShootSound)];
      outbox := outbox + [SendShoot(bullet.x, bullet.y, bullet.angle)];
    }

    /** `moveLocalPlayer` with the held keys, the joystick vector and, when a
        pointer position is known, the angle towards it (`aim`) as inputs. */
    method MoveLocalPlayer(held: set<string>, stick: Vec, aim: Option<real>, width: nat, height: nat)
      requires Valid()
      modifies this
      ensures Valid()
      ensures 0.0 <= local.x <= width as real && 0.0 <= local.y <= height as real
      ensures local == old(local).(
        x := Clamp(old(local.x) + AxisStep(held, "a", "d", stick.dx), width as real),
        y := Clamp(old(local.y) + AxisStep(held, "w", "s", stick.dy), height as real),
        angle := if aim.Some? then aim.value else old(local.angle))
      ensures players == old(players) && order == old(order) && bullets == old(bullets) && outbox == old(outbox)
    {
      var x, y := local.x, local.y;
      if "w" in held || stick.dy < -StickThreshold {
        y := y - LocalSpeed;
      }
      if "s" in held || stick.dy > StickThreshold {
        y := y + LocalSpeed;
      }
      assert y == old(local.y) + AxisStep(held, "w", "s", stick.dy);
      if "a" in held || stick.dx < -StickThreshold {
        x := x - LocalSpeed;
      }
      if "d" in held || stick.dx > StickThreshold {
        x := x + LocalSpeed;
      }
      assert x == old(local.x) + AxisStep(held, "a", "d", stick.dx);
      var angle := if aim.Some? then aim.value else local.angle;
      local := local.(x := Clamp(x, width as real), y := Clamp(y, height as real), angle := angle);
    }

    /** `updateBullets`: every bullet advances in place, then the list is
        replaced by the bullets strictly inside the canvas. */
    method UpdateBullets(trig: real -> Vec, width: nat, height: nat)
      requires Valid()
      modifies this
      ensures Valid()
      ensures |bullets| <= |old(bullets)|
      ensures bullets == KeepInside(Moved(old(bullets), trig), width, height)
      ensures players == old(players) && order == old(order) && local == old(local) && outbox == old(outbox)
    {
      var i := 0;
      while i < |bullets|
        invariant 0 <= i <= |bullets| == |old(bullets)|
        invariant forall j :: 0 <= j < i ==> bullets[j] == Advance(old(bullets)[j], trig)
        invariant forall j :: i <= j < |bullets| ==> bullets[j] == old(bullets)[j]
        invariant players == old(players) && order == old(order) && local == old(local) && outbox == old(outbox)
      {
        bullets := bullets[i := Advance(bullets[i], trig)];
        i := i + 1;
      }
      assert bullets == Moved(old(bullets), trig);
      KeepInsideMembers(bullets, width, height);
      bullets := KeepInside(bullets, width, height);
    }

    /** `checkBulletHits`: every bullet, in list order, against the remote players. */
    method CheckBulletHits()
      requires Valid()
      modifies this
      ensures Valid()
      ensures var r := HitAll(old(players), order, bullets);
        && players == r.players
        && local == old(local).(score := old(local.score) + |r.kills|)
        && outbox == old(outbox) + KillEffects(r.kills)
      ensures bullets == old(bullets) && order == old(order)
    {
      ghost var kills: seq<string> := [];
      var bs := bullets;
      var i := 0;
      while i < |bs|
        invariant 0 <= i <= |bs|
        invariant bullets == bs && order == old(order)
        invariant HitAll(old(players), order, bs[..i]) == Pass(players, kills)
        invariant local == old(local).(score := old(local.score) + |kills|)
        invariant outbox == old(outbox) + KillEffects(kills)
      {
        assert bs[..i + 1][..i] == bs[..i];
        ghost var more := HitOne(players, order, bs[i]).kills;
        HitWith(bs[i]);
        KillEffectsAppend(kills, more);
        SeqAssoc(old(outbox), KillEffects(kills), KillEffects(more));
        kills := kills + more;
        i := i + 1;
      }
      assert bullets[..|bullets|] == bullets;
      HitPassKeepsRegistry(old(players), order, bullets);
    }

    /** The body of the `forEach` in `checkBulletHits`: bullet `b` against
        every remote player in key order; a hit takes 25 health, and a kill
        marks the player dead, credits the local score and is announced. */
    method HitWith(b: Bullet)
      modifies this
      ensures var r := HitOne(old(players), order, b);
        && players == r.players
        && local == old(local).(score := old(local.score) + |r.kills|)
        && outbox == old(outbox) + KillEffects(r.kills)
      ensures bullets == old(bullets) && order == old(order)
    {
      var j := 0;
      ghost var kills: seq<string> := [];
      while j < |order|
        invariant 0 <= j <= |order|
        invariant bullets == old(bullets) && order == old(order)
        invariant HitOne(old(players), order[..j], b) == Pass(players, kills)
        invariant local == old(local).(score := old(local.score) + |kills|)
        invariant outbox == old(outbox) + KillEffects(kills)
      {
        assert order[..j + 1][..j] == order[..j];
        var killed := HitPlayer(order[j], b, kills);
        if killed {
          assert (kills + [order[j]])[..|kills|] == kills;
          SeqAssoc(old(outbox), KillEffects(kills), [PlaySound(HitSound), Broadcast(Hit(Some(order[j])))]);
          kills := kills + [order[j]];
        }
        j := j + 1;
      }
      assert order[..|order|] == order;
    }

    /** The body of the `for ... in` loop of `checkBulletHits`: bullet `b`
        against the remote player filed under `k`. A hit takes 25 health;
        when that leaves none, the player is marked dead, the local score
        goes up by one and the kill is announced. */
    method HitPlayer(k: string, b: Bullet, ghost kills: seq<string>) returns (killed: bool)
      modifies this
      ensures Visit(Pass(old(players), kills), k, b) == Pass(players, kills + if killed then [k] else [])
      ensures local == old(local).(score := old(local.score) + if killed then 1 else 0)
      ensures outbox == old(outbox) + if killed then [PlaySound(HitSound), Broadcast(Hit(Some(k)))] else []
      ensures bullets == old(bullets) && order == old(order)
    {
      killed := false;
      if k in players {
        var p := players[k];
        if p.alive && b.owner != Some(k) {
          var dx := p.x - b.x;
          var dy := p.y - b.y;
          if dx * dx + dy * dy < HitRadius * HitRadius {
            var health := p.health - Damage;
            if health <= 0 {
              players := players[k := p.(health := health, alive := false)];
              local := local.(score := local.score + 1);
              outbox := outbox + [PlaySound(HitSound), Broadcast(Hit(Some(k)))];
              killed := true;
            } else {
              players := players[k := p.(health := health)];
            }
          }
        }
      }
    }
  }
}
