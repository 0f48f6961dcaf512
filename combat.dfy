/**
 What one `checkBulletHits` pass does to the remote-player registry, as
 functions of the registry, its key order and the bullet list, and what it
 amounts to for each player on its own.
 */
module Combat {
  import opened Entities

  /** Bullets hit within this distance of a player's centre. */
  const HitRadius: real := 15.0

  /** `Math.sqrt(dx * dx + dy * dy) < 15`, compared on squares. */
  predicate Near(p: Player, b: Bullet) {
    var dx := p.x - b.x;
    var dy := p.y - b.y;
    dx * dx + dy * dy < HitRadius * HitRadius
  }

  /** Bullet `b` damages the player filed under `key`: that player is alive,
      is not the bullet's owner, and is within reach. */
  predicate Targets(key: string, p: Player, b: Bullet) {
    p.alive && b.owner != Some(key) && Near(p, b)
  }

  /** One hit: 25 health off; a player left at or below zero is marked dead. */
  function Struck(p: Player): Player {
    var h := p.health - Damage;
    if h <= 0 then p.(health := h, alive := false) else p.(health := h)
  }

  /** The registry after a pass, and the keys of the players it killed, in
      the order it killed them. */
  datatype Pass = Pass(players: map<string, Player>, kills: seq<string>)

  /** One step of the inner loop: bullet `b` against the player filed under `k`. */
  function Visit(prev: Pass, k: string, b: Bullet): (r: Pass)
    ensures r.players.Keys == prev.players.Keys
  {
    if k in prev.players && Targets(k, prev.players[k], b) then
      var q := Struck(prev.players[k]);
      Pass(prev.players[k := q], prev.kills + if q.alive then [] else [k])
    else prev
  }

  /** The inner loop: bullet `b` against every key of `order`, in that order. */
  function HitOne(ps: map<string, Player>, order: seq<string>, b: Bullet): (r: Pass)
    ensures r.players.Keys == ps.Keys
    decreases |order|
  {
    if order == [] then Pass(ps, [])
    else Visit(HitOne(ps, order[..|order| - 1], b), order[|order| - 1], b)
  }

  /** The outer loop: every bullet of `bs`, in list order. */
  function HitAll(ps: map<string, Player>, order: seq<string>, bs: seq<Bullet>): (r: Pass)
    ensures r.players.Keys == ps.Keys
    decreases |bs|
  {
    if bs == [] then Pass(ps, [])
    else
      var prev := HitAll(ps, order, bs[..|bs| - 1]);
      var next := HitOne(prev.players, order, bs[|bs| - 1]);
      Pass(next.players, prev.kills + next.kills)
  }

  /** Reference definition, one player at a time: the bullets of `bs` reach
      the player filed under `key` one after another. */
  function Endure(key: string, p: Player, bs: seq<Bullet>): Player
    decreases |bs|
  {
    if bs == [] then p
    else
      var q := Endure(key, p, bs[..|bs| - 1]);
      if Targets(key, q, bs[|bs| - 1]) then Struck(q) else q
  }

  /** How many bullets of `bs` are aimed well enough at `p`, and not fired by it. */
  function Threats(key: string, p: Player, bs: seq<Bullet>): nat
    decreases |bs|
  {
    if bs == [] then 0
    else
      Threats(key, p, bs[..|bs| - 1]) + if bs[|bs| - 1].owner != Some(key) && Near(p, bs[|bs| - 1]) then 1 else 0
  }

  /** The closed form of a pass for one player: an alive player loses 25 per
      threatening bullet down to 0, a dead one is untouched, and nothing but
      health and the alive flag changes. */
  function Outcome(key: string, p: Player, bs: seq<Bullet>): Player {
    var left := p.health - Damage * Threats(key, p, bs);
    var h := if !p.alive then p.health else if left < 0 then 0 else left;
    p.(health := h, alive := h > 0)
  }

  lemma {:induction false} EndureDead(key: string, p: Player, bs: seq<Bullet>)
    requires !p.alive
    ensures Endure(key, p, bs) == p
    decreases |bs|
  {
    if bs != [] {
      EndureDead(key, p, bs[..|bs| - 1]);
    }
  }

  /** Per player, the bullet-by-bullet pass agrees with the closed form, and
      keeps health in steps of 25 with `alive` exactly while health is positive. */
  lemma {:induction false} EndureClosedForm(key: string, p: Player, bs: seq<Bullet>)
    requires HealthOk(p)
    ensures Endure(key, p, bs) == Outcome(key, p, bs)
    ensures HealthOk(Endure(key, p, bs))
    decreases |bs|
  {
    if bs != [] {
      var init := bs[..|bs| - 1];
      var b := bs[|bs| - 1];
      EndureClosedForm(key, p, init);
      var q := Endure(key, p, init);
      assert q.x == p.x && q.y == p.y;
      assert Near(q, b) == Near(p, b);
      if Targets(key, q, b) {
        StruckOk(q);
      }
    }
  }

  /** A hit on a well-formed alive player takes exactly 25 off and leaves it well formed. */
  lemma StruckOk(q: Player)
    requires HealthOk(q) && q.alive
    ensures Struck(q).health == q.health - Damage >= 0
    ensures HealthOk(Struck(q))
  {
    assert q.health >= Damage by {
      assert q.health % Damage == 0 && q.health > 0;
    }
  }

  /** With keys visited once each, a bullet affects each player on its own. */
  lemma {:induction false} HitOneAt(ps: map<string, Player>, order: seq<string>, b: Bullet, k: string)
    requires NoDup(order) && k in ps
    ensures HitOne(ps, order, b).players[k] == if k in order && Targets(k, ps[k], b) then Struck(ps[k]) else ps[k]
    decreases |order|
  {
    if order != [] {
      var init := order[..|order| - 1];
      assert NoDup(init);
      HitOneAt(ps, init, b, k);
      var last := order[|order| - 1];
      if last != k {
        assert k in order <==> k in init;
      } else {
        assert k !in init;
      }
    }
  }

  /** A bullet kills, once each, exactly the listed players it takes from alive to dead. */
  lemma {:induction false} HitOneKills(ps: map<string, Player>, order: seq<string>, b: Bullet)
    requires NoDup(order)
    ensures var r := HitOne(ps, order, b);
      && NoDup(r.kills)
      && forall k :: k in r.kills <==> k in order && k in ps && ps[k].alive && !r.players[k].alive
    decreases |order|
  {
    if order != [] {
      var init := order[..|order| - 1];
      var last := order[|order| - 1];
      assert NoDup(init);
      HitOneKills(ps, init, b);
      var prev := HitOne(ps, init, b);
      var r := HitOne(ps, order, b);
      assert last !in init;
      forall k | k in ps
        ensures k in r.kills <==> k in order && ps[k].alive && !r.players[k].alive
      {
        HitOneAt(ps, init, b, k);
        HitOneAt(ps, order, b, k);
      }
    }
  }

  /** With keys visited once each, every listed player goes through the
      bullets one after another; unlisted entries are untouched. */
  lemma {:induction false} HitAllAt(ps: map<string, Player>, order: seq<string>, bs: seq<Bullet>, k: string)
    requires NoDup(order) && k in ps
    ensures HitAll(ps, order, bs).players[k] == if k in order then Endure(k, ps[k], bs) else ps[k]
    decreases |bs|
  {
    if bs != [] {
      var init := bs[..|bs| - 1];
      HitAllAt(ps, order, init, k);
      HitOneAt(HitAll(ps, order, init).players, order, bs[|bs| - 1], k);
    }
  }

  /** A pass kills, once each, exactly the listed players it takes from alive to dead. */
  lemma {:induction false} HitAllKills(ps: map<string, Player>, order: seq<string>, bs: seq<Bullet>)
    requires NoDup(order)
    ensures var r := HitAll(ps, order, bs);
      && NoDup(r.kills)
      && forall k :: k in r.kills <==> k in order && k in ps && ps[k].alive && !r.players[k].alive
    decreases |bs|
  {
    if bs != [] {
      var init := bs[..|bs| - 1];
      var b := bs[|bs| - 1];
      HitAllKills(ps, order, init);
      var prev := HitAll(ps, order, init);
      var next := HitOne(prev.players, order, b);
      HitOneKills(prev.players, order, b);
      var r := HitAll(ps, order, bs);
      forall k | k in ps
        ensures (k in prev.kills ==> !next.players[k].alive)
        ensures (prev.players[k].alive ==> ps[k].alive)
      {
        HitOneAt(prev.players, order, b, k);
        HitAllAt(ps, order, init, k);
        if !ps[k].alive {
          EndureDead(k, ps[k], init);
        }
      }
      forall i, j | 0 <= i < j < |r.kills| ensures r.kills[i] != r.kills[j] {
        if i < |prev.kills| <= j {
          assert r.kills[i] in prev.kills;
          assert r.kills[j] in next.kills;
        }
        else if i < |prev.kills| {
          assert r.kills[i] == prev.kills[i] && r.kills[j] == prev.kills[j];
        }
        else {
          assert r.kills[i] == next.kills[i - |prev.kills|] && r.kills[j] == next.kills[j - |prev.kills|];
        }
      }
    }
  }

  /** Everything one pass does to a well-formed registry: each entry ends as
      its closed form says, the registry stays well formed, and the kills
      list names each newly dead player exactly once. */
  lemma HitPassOutcome(ps: map<string, Player>, order: seq<string>, bs: seq<Bullet>)
    requires RegistryOk(ps, order)
    ensures var r := HitAll(ps, order, bs);
      && RegistryOk(r.players, order)
      && (forall k :: k in ps ==> r.players[k] == Outcome(k, ps[k], bs))
      && NoDup(r.kills)
      && (forall k :: k in r.kills <==> k in ps && ps[k].alive && !r.players[k].alive)
  {
    var r := HitAll(ps, order, bs);
    forall k | k in ps
      ensures r.players[k] == Outcome(k, ps[k], bs)
    {
      HitAllAt(ps, order, bs, k);
      EndureClosedForm(k, ps[k], bs);
    }
    HitPassKeepsRegistry(ps, order, bs);
    HitAllKills(ps, order, bs);
  }

  /** A pass keeps the registry well formed: health stays in steps of 25
      within [0, 100] and `alive` holds exactly while health is positive. */
  lemma HitPassKeepsRegistry(ps: map<string, Player>, order: seq<string>, bs: seq<Bullet>)
    requires RegistryOk(ps, order)
    ensures RegistryOk(HitAll(ps, order, bs).players, order)
  {
    var r := HitAll(ps, order, bs);
    forall k | k in ps
      ensures KeyOf(r.players[k].id) == k && HealthOk(r.players[k])
    {
      HitAllAt(ps, order, bs, k);
      EndureClosedForm(k, ps[k], bs);
    }
  }

  /** A pass over a single key, one more bullet at a time. */
  lemma SingleKeyStep(ps: map<string, Player>, k: string, bs: seq<Bullet>, b: Bullet)
    ensures var prev := HitAll(ps, [k], bs);
      var v := Visit(Pass(prev.players, []), k, b);
      HitAll(ps, [k], bs + [b]) == Pass(v.players, prev.kills + v.kills)
  {
    var prev := HitAll(ps, [k], bs);
    assert (bs + [b])[..|bs|] == bs;
    assert (bs + [b])[|bs|] == b;
    assert [k][..0] == [] && [k][0] == k;
    assert HitOne(prev.players, [k], b) == Visit(Pass(prev.players, []), k, b);
  }

  /** One more bullet at the only player of a one-entry pass that has killed
      nobody yet: it strikes the player when it targets it. */
  lemma StrikeSingle(ps: map<string, Player>, k: string, bs: seq<Bullet>, q: Player, b: Bullet)
    requires HitAll(ps, [k], bs) == Pass(map[k := q], [])
    requires Targets(k, q, b)
    ensures HitAll(ps, [k], bs + [b]) == Pass(map[k := Struck(q)], if Struck(q).alive then [] else [k])
  {
    SingleKeyStep(ps, k, bs, b);
    assert map[k := q][k := Struck(q)] == map[k := Struck(q)];
  }

  /** A full-health player sitting under four bullets fired by a third peer
      goes 100, 75, 50, 25 (alive, no kills so far), then 0 and dies: the pass reports exactly that one
      kill, which the caller credits to the local score although the local
      player fired none of the bullets. */
  lemma FourHitsScenario(p: Player)
    requires p.alive && p.health == FullHealth && p.x == 0.0 && p.y == 0.0
    ensures var b := Bullet(3.0, 4.0, 0.0, BulletSpeed, Some("c"));
      && HitAll(map["b" := p], ["b"], [b]) == Pass(map["b" := p.(health := 75)], [])
      && HitAll(map["b" := p], ["b"], [b, b]) == Pass(map["b" := p.(health := 50)], [])
      && HitAll(map["b" := p], ["b"], [b, b, b]) == Pass(map["b" := p.(health := 25)], [])
      && HitAll(map["b" := p], ["b"], [b, b, b, b]) == Pass(map["b" := p.(health := 0, alive := false)], ["b"])
  {
    var b := Bullet(3.0, 4.0, 0.0, BulletSpeed, Some("c"));
    var ps := map["b" := p];
    var p1, p2, p3 := p.(health := 75), p.(health := 50), p.(health := 25);
    assert Near(p, b) && Near(p1, b) && Near(p2, b) && Near(p3, b);
    var bs0: seq<Bullet> := [];
    assert HitAll(ps, ["b"], bs0) == Pass(map["b" := p], []);
    StrikeSingle(ps, "b", bs0, p, b);
    var bs1 := bs0 + [b];
    StrikeSingle(ps, "b", bs1, p1, b);
    var bs2 := bs1 + [b];
    StrikeSingle(ps, "b", bs2, p2, b);
    var bs3 := bs2 + [b];
    StrikeSingle(ps, "b", bs3, p3, b);
    assert bs1 == [b] && bs2 == [b, b] && bs3 == [b, b, b];
    assert bs3 + [b] == [b, b, b, b];
  }
}
