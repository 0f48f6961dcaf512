# battleground-web: the client game world and its message router

battleground-web is a browser multiplayer top-down shooter. Each client keeps
its own world and trusts what its peers report. This project models that world
(main.js) and the network file that feeds it (network.js) in Dafny, and proves
what each operation does to it.

- **World** (`Game.World`, main.js). It holds the remote-player registry `players`,
  keyed by peer id, and `order`, the insertion order in which `for ... in` visits those keys.
  It also holds the bullet list `bullets` and the local player record `local`.
  A log `outbox` records main.js's calls out to the UI (sounds) and to the network
  (`sendShoot`, `broadcast`).
- **Session** (`Network.Session`, network.js). It holds the `connections` list,
  this client's `playerId`, a log of every `conn.send`, and the sounds network.js
  plays.
- **Values** (`Entities`). Players, bullets, messages, and the registry invariant:
  every remote player's health is one of 0, 25, 50, 75 or 100, and `alive` holds
  exactly when health is positive (`HealthOk`, `RegistryOk`).
- **Hit pass** (`Combat`). `checkBulletHits` is written as functions: `Visit`
  (one player against one bullet), `HitOne` (the inner loop) and `HitAll` (the
  outer loop). A per-player reference definition (`Endure`) has a closed form
  (`Outcome`): an alive player loses 25 per threatening bullet, down to 0.

The following behaviours of the source are kept as written:
- JavaScript turns `players[undefined]` into the key `"undefined"` (`KeyOf`).
- main.js reads `Network.playerId` from a copy that network.js exports once, at
  load time (network.js:133), before any peer has opened. That copy is
  `undefined` for good, so locally fired bullets have owner `None`
  (`Game.ExportedPlayerId`). Such a bullet can hit every remote player.
- Every kill in a hit pass raises the local score by one, whoever fired the
  bullet (`Combat.FourHitsScenario` shows a third peer's bullets scoring for the
  local player).
- Nothing in these two files lowers the local player's health or clears its
  `alive` flag. Every `World` method keeps `local.health` and `local.alive`
  as they were.
- `sendShoot` plays the shoot sound again after `shootBullet` has already
  played it.

Inputs the source reads from the browser become parameters:
- `Math.random()` draws are fractions `rx`, `ry` in [0, 1), and colours are given strings.
- The held keys are a `set<string>`, and the joystick vector is a `Vec`.
- The `atan2` angle towards the pointer is `aim`: `None` while no pointer position is known.
- `(Math.cos(a), Math.sin(a))` is a given function `trig`.
- The canvas width and height are natural numbers.

Only `addRemotePlayer` creates remote players: `updateRemotePlayer` ignores
an id it does not know (main.js:43), so a `state` message from an unknown peer
changes nothing.

## Model

| member | source | states |
|---|---|---|
| Entities.KeyOfCollides | main.js:27-28 | distinct string ids get distinct registry keys, but a missing id and the string "undefined" share one key, and no other id maps to it |
| Entities.NewRemotePlayer | main.js:28-38 | a new remote player has the given id, name and colour, angle 0, is alive with health 100 and score 0, sits in [0,500)², and satisfies the health invariant |
| Entities.Respawn | main.js:138-143 | a respawned player is alive with full health and satisfies the health invariant; id, name, angle, score and colour are kept |
| Entities.RespawnOnCanvas | main.js:139-140 | with random draws in [0,1) the respawn position lies on the canvas, strictly below each side that is positive |
| Movement.Clamp | main.js:74-75 | the clamped coordinate lies in [0, hi]; it is the input when that is in range, 0 below, hi above |
| Movement.StepBounded | main.js:65-68 | one axis moves by at most `speed`; by nothing when both or neither direction is pressed; by exactly ±speed towards the one pressed |
| Movement.ClampShortens | main.js:74-75 | clamping a point that was on the canvas never moves it further, or in another direction, than the unclamped step |
| Combat.Visit | main.js:118-130 | one bullet against one player keeps the registry's keys |
| Combat.HitOne | main.js:117-132 | one bullet against every player keeps the registry's keys |
| Combat.HitAll | main.js:115-133 | a whole hit pass keeps the registry's keys |
| Combat.StruckOk | main.js:123-125 | a hit on a well-formed alive player takes exactly 25 off and leaves health in {0,…,100} with alive iff health > 0 |
| Combat.EndureDead | main.js:119 | a dead player is untouched by any number of bullets |
| Combat.EndureClosedForm | main.js:119-126 | per player, the bullet-by-bullet pass equals the closed form (25 off per bullet that is not its own and is within 15, while alive, never below 0; alive iff health > 0; nothing else changes) and keeps the health invariant |
| Combat.HitOneAt | main.js:117-131 | with each key visited once, a bullet changes a player only by one hit, and only if it was alive, not the owner and within reach |
| Combat.HitOneKills | main.js:123-129 | one bullet's kills list has no repeats and names exactly the players it took from alive to dead |
| Combat.HitAllAt | main.js:115-133 | in a whole pass each listed player goes through the bullets in list order, independently of the others |
| Combat.HitAllKills | main.js:124-128 | a whole pass's kills list has no repeats and names exactly the players it took from alive to dead |
| Combat.HitPassOutcome | main.js:114-134 | on a well-formed registry: every entry ends as its closed form says, the registry stays well formed, and the kills are exactly the newly dead players, each once |
| Combat.HitPassKeepsRegistry | main.js:119-126 | a hit pass keeps every remote player's health in {0,25,50,75,100} with alive iff health > 0 |
| Combat.FourHitsScenario | main.js:119-128 | a full-health player under four bullets of a third peer is at 75, 50 and 25 and alive with no kills after one, two and three of them, and after the fourth is at 0, dead, and the pass's one kill |
| Game.KillEffectsShape | main.js:124-129 | a pass makes exactly two calls per kill, in kill order: the hit sound, then a `hit` broadcast naming the victim |
| Game.KillEffectsAppend | main.js:115-133 | the calls of consecutive bullets' kills are the calls of each, in order |
| Game.Admit | main.js:26-40 | an existing entry for the id is left exactly as it was; otherwise exactly one entry is added under the id's key, with the given id and name, angle 0, alive, health 100, score 0; no other entry changes |
| Game.AdmitOrder | main.js:27-28 | a new key is visited last; an existing key leaves the order as it was |
| Game.AdmitKeepsRegistry | main.js:26-40 | adding a remote player keeps the registry well formed |
| Game.Reposition | main.js:42-48 | an unknown id changes nothing and adds no entry; a known id gets the given x, y and angle and keeps every other field; no other entry changes |
| Game.KeepInsideMembers | main.js:109-111 | the filter keeps a bullet exactly when it was in the list and lies strictly inside (0,width)×(0,height), and never lengthens the list |
| Game.KeepInsideAppend | main.js:109-111 | filtering a concatenation filters each part and keeps the parts in order, so survivors keep their relative order |
| Game.KeepInsideIdempotent | main.js:109-111 | a filtered list passes the same filter unchanged |
| Game.World.constructor | main.js:8-21 | the world at load: no remote players, no bullets, no calls made; the local player has no id, is alive with health 100, score 0 and angle 0, at 100 + 500·rx, 100 + 300·ry with the given colour |
| Game.World.AddRemotePlayer | main.js:26-40 | the registry becomes `Admit` of the old one, the key order `AdmitOrder`; bullets, local player and calls are unchanged; the invariant is kept |
| Game.World.UpdateRemotePlayer | main.js:42-48 | the registry becomes `Reposition` of the old one; everything else is unchanged; the invariant is kept |
| Game.World.SpawnRemoteBullet | main.js:50-52 | exactly one bullet is appended with the given position and angle, speed 7 and owner the given id; earlier bullets and everything else are unchanged |
| Game.World.ShootBullet | main.js:87-99 | a dead local player changes nothing; otherwise one bullet is appended at the local position and angle with speed 7 and the exported (undefined) owner, then the shoot sound and a `sendShoot` call are made |
| Game.World.MoveLocalPlayer | main.js:61-76 | the local position ends in [0,width]×[0,height], each axis clamped after a step of ±3 per pressed direction (key or stick past 0.3); the angle becomes the aim when there is one; nothing else changes |
| Game.World.UpdateBullets | main.js:104-112 | the bullet list becomes the advanced bullets that lie strictly inside the canvas, in order, and is no longer than before |
| Game.World.CheckBulletHits | main.js:114-134 | the registry becomes the pass's result, the local score grows by the number of kills, one sound and one `hit` broadcast are made per kill, bullets and key order are unchanged, and the invariant is kept |
| Game.World.HitWith | main.js:115-133 | one bullet against every remote player in key order: registry, score and calls change exactly as `HitOne` says |
| Game.World.HitPlayer | main.js:118-130 | one bullet against one player: the registry changes as `Visit` says, and a kill (reported in `killed`) adds one to the score and the hit sound and broadcast to the calls |
| Network.SendToOpenExactlyOpen | network.js:67-71 | a broadcast sends only the given message, only to listed open connections, and to each open connection as many times as it is listed (once when listed once), to closed ones never |
| Network.SendToOpenGrown | network.js:68-70 | a connection added at the end of the list gets the message after all earlier ones, and only if it is open |
| Network.Session.constructor | network.js:6-9 | no connections, no peer id yet, nothing sent |
| Network.Session.PeerOpened | network.js:14-16 | the peer id becomes the one the library assigned; nothing else changes |
| Network.Session.AddConnection | network.js:42-45 | the connection is appended to the list; no connection is ever removed |
| Network.Session.AnnounceJoin | network.js:33-35 | a `join` message with this client's id and name is sent on the new connection, which is then appended to the list |
| Network.Session.SendWelcome | network.js:52-58 | a `welcome` message with this client's id and name is sent on the connection; the list is unchanged |
| Network.Session.Broadcast | network.js:67-71 | the send log grows by exactly one send per open connection, in list order; connections are unchanged |
| Network.Session.SendPlayerState | network.js:101-109 | a `state` message with this client's current id and the given x, y and angle is broadcast |
| Network.Session.SendShoot | network.js:115-124 | a `shoot` message with this client's current id and the given x, y and angle is broadcast, then the shoot sound plays |
| Network.Session.HandleNetworkData | network.js:73-95 | `join` does only `addRemotePlayer`; `state` does only `updateRemotePlayer` (no change for an unknown id); `shoot` appends a bullet owned by the message's id even if that id is unknown; `hit` only plays the hit sound; `welcome` and unknown types change nothing; the invariant is kept |

## Left out

- Rendering (`render`, `drawPlayer`, `drawUI`, main.js:149-209): canvas drawing only, no state change.
- The frame loop (`gameLoop`, main.js:214-230): it is driven by `requestAnimationFrame`, and the respawn runs through `setTimeout`. Each step it calls is modelled on its own, and `Entities.Respawn` is the respawn's record update.
- The keyboard, mouse and touch listeners, and all of ui.js. Held keys, the joystick vector and the pointer angle are inputs.
- Game.World.MoveLocalPlayer: the facing angle is `Math.atan2` towards the pointer, computed from the position before clamping. It is taken as the input `aim` rather than computed.
- Game.World.UpdateBullets: `Math.cos`/`Math.sin` are a given function. Positions are real numbers, so floating-point rounding is not modelled.
- Combat.Near: the hit test compares squared distance with 225 instead of taking `Math.sqrt`. The two agree on real numbers, but not necessarily bit for bit in floating point.
- Random spawn positions and colours (`Math.random`, the `toString(16)` colour) are parameters.
- PeerJS peer creation and its callbacks (`startHostConnection`, `joinExistingRoom`, `setupPeerEvents`, network.js:12-61). The id assignment, the connection pushes, and the join and welcome sends are modelled as `Session` methods. Event timing and which callback fires when are left out.
- The library sets a connection's `open` flag. The model reads the flag but never sets it.
- `console.log` calls and the lobby text.
- Message fields are assumed present with the types the sender writes: `x`, `y` and `angle` numbers, `name` a string. An `id` may be missing, but a present `id` is assumed to be a string. A numeric id would not equal the string key in `b.owner !== id` (main.js:119), so that player's own bullets could hit it; the model does not cover this.
- Ids that JavaScript objects treat specially are not modelled: integer-like strings are enumerated before other keys, and names inherited from `Object.prototype` such as "constructor" already look present. Peer ids are random strings, so neither case arises in practice.
