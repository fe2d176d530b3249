# Acceleration of Tofu — a verified model of the combat core

This project models, in Dafny, the per-frame combat simulation of the
two-player arena game *Acceleration of Tofu* and proves properties of it:

- **Arena** (`arena.dfy`): the circular arena's inside and warning-band
  tests, the clamp of a position back into the circle, and the blinking
  border counter, as the `Arena` class.
- **Player** (`player_rules.dfy`, `player.dfy`, `player_props.dfy`): the
  player's per-frame state machine (facing, movement with diagonal
  normalisation, dash start/stop/steering, heat with overheat hysteresis,
  shield, hyper mode and the hyper laser, the weapon-B burst, damage
  intake, reset). `PlayerRules` states every step as a function on a
  `PlayerState` value; the `Player` class updates its fields in place, and
  each of its methods is proved equal to the rule. `PlayerProperties`
  proves what each rule promises and the frame invariant `Inv` that every
  frame, reset and hit keep.
- **Projectiles** (`projectile.dfy`): the base projectile and its beam,
  ballistic and melee subtypes (homing towards the other player, flight,
  lifetime, leaving the arena, hit rewards, reflection), as rules on values
  and as the `Projectile` class.
- **Collisions** (`collision_rules.dfy`): `handle_collisions`, projectile
  by projectile.
- **AI** (`ai_rules.dfy`, `ai_props.dfy`): the auto-test controller (threat
  prediction by the intercept quadratic, evasion, walking-direction
  resampling) and the simple versus AI, with every random draw an explicit
  input.
- **Key bindings** (`keyconfig.dfy`): the in-memory part of
  `load_key_config` (filter against the allowed keys, fill missing actions
  from the defaults) and the remap of one action on the key-config screen.
- **Match** (`match_rules.dfy`, `match_props.dfy`, `game.dfy`): one frame of
  `Game.update` (clock, arena pulse, the fighters, projectile updates,
  collisions, the knock-out check, the auto-test timer and its two ending
  rules), `reset_players` and the key remap, on a `World` value and on the
  `Game` class. `Game.Update` is proved to be one `Frame`. `FrameOk` shows
  that every frame keeps the world well formed: both players keep their
  invariant and their sides, and every projectile belongs to one of them.

`sqrt`, `cos`, `sin` and `atan2` are fields of a `Math` value passed to
every operation that uses them. `Lawful(m)` states the only laws the
proofs rely on: the square root is a non-negative root, cos² + sin² = 1,
and atan2 gives the heading of a vector. π is the double value of
`math.pi`. Python's float `%` is `FMod`, which floors. Positions, gauges,
heat and health are `real`, and counters are `int`. Players are indices:
a projectile's owner is 0 for player 1 and 1 for player 2.

## Model

| member | source | states |
|---|---|---|
| Numeric.Min | game/player.py:350 | Python's min of two numbers: at most both, and one of them |
| Numeric.Max | game/player.py:405 | Python's max of two numbers: at least both, and one of them |
| Numeric.FMod | backup/game/projectile.py:70 | Python's float `%` for a positive divisor: the result lies in [0, d) and differs from x by a whole number of divisors |
| Numeric.FModShift | backup/game/projectile.py:53 | shifting by whole turns does not change the floor-modulo |
| ArenaModel.PulseStep | game/arena.py:18-27 | the alpha moves by direction × speed; a step reaching 100 or below stops at 100 and turns upward, one reaching 255 or above stops at 255 and turns downward, and otherwise the direction is kept; the alpha always stays within 100..255 |
| ArenaModel.Arena.constructor | game/arena.py:7-16 | a new arena is valid, starts fully opaque (255) and fades (direction −1) |
| ArenaModel.Arena.Update | game/arena.py:18-27 | one pulse step of the border alpha; the arena stays valid |
| ArenaModel.Arena.InsideIffSquared | game/arena.py:47-50 | a point is inside exactly when its squared distance from the centre is below the squared radius |
| ArenaModel.Arena.NearBorderBand | game/arena.py:52-55 | the warning band is the inside points at least the warning radius from the centre |
| ArenaModel.Arena.ConstrainPositionSpec | game/arena.py:57-69 | an inside point is kept; an outside point moves onto the circle of radius − 1 along the same ray from the centre; the result is always inside |
| ArenaModel.Arena.ClampOutside | game/arena.py:63-67 | an outside point lands at distance radius − 1 on its own ray, inside the arena |
| ArenaModel.Arena.ClampOutsideResult | game/arena.py:63-67 | an outside point becomes centre + (cos, sin)(atan2(dy, dx)) × (radius − 1) |
| ArenaModel.Arena.RimPoint | game/arena.py:65-67 | the rim point built from the heading is radius − 1 from the centre, on the offset's ray, and inside |
| ArenaModel.Arena.ConstrainPositionIdempotent | game/arena.py:57-69 | constraining a constrained point changes nothing |
| Projectiles.AngleDiff | backup/game/projectile.py:53 | the wrapped turn lies in [−π, π) and differs from target − current by a whole number of turns |
| Projectiles.SpawnSpec | backup/game/projectile.py:7-135 | all three subtypes start alive with the shooter as owner and the given damage and heading; beam: homing 0.02, speed 15, radius 3, lifetime 60, at the muzzle; ballistic: homing 0.03, speed 8, radius 6, lifetime 60, at the muzzle; melee: no homing, speed 12, radius 15, lifetime 10, 20 units ahead |
| Projectiles.HomeTowardsSpec | backup/game/projectile.py:42-56 | homing changes only the heading, by at most π × strength either way, and does nothing without a target or on a dead projectile |
| Projectiles.BoundedTurn | backup/game/projectile.py:56 | a turn by a × k with −b ≤ a ≤ b and k ≥ 0 moves the heading by at most b × k |
| Projectiles.UpdateSpec | backup/game/projectile.py:20-144 | one update: lifetime drops by one; the projectile is dead afterwards exactly when it was dead, its lifetime ran out, or the point it flew to lies outside the arena radius; only position, heading, lifetime and death change, and the heading is the homed one |
| Projectiles.SteeredOnlyTurns | backup/game/projectile.py:22-26 | steering towards the opposing player changes only the heading |
| Projectiles.FlyFields | backup/game/projectile.py:28-40 | the flight step moves `speed` ahead, ages one frame and dies exactly on expiry or on leaving the arena |
| Projectiles.FlySpec | backup/game/projectile.py:37-40 | leaving the arena is the squared distance exceeding the squared radius |
| Projectiles.UpdateMotion | backup/game/projectile.py:20-144 | a non-melee projectile moves exactly `speed`; a surviving melee strike ends 20 units from its owner |
| Projectiles.FlyMotion | backup/game/projectile.py:28-30 | the flight step moves exactly `speed` and keeps kind and owner |
| Projectiles.FollowOnlyMoves | backup/game/projectile.py:137-144 | following the owner changes only a melee strike's position |
| Projectiles.FollowMotion | backup/game/projectile.py:141-144 | a living melee strike is put 20 units from its owner |
| Projectiles.DeathIsFinal | backup/game/projectile.py:32-71 | a dead projectile stays dead under update, homing, reflection and hit |
| Projectiles.ReflectSpec | backup/game/projectile.py:66-71 | reflection gives the projectile to the reflector and turns the heading by half a circle, wrapped into [0, 2π); nothing else changes |
| Projectiles.ReflectTwice | backup/game/projectile.py:66-71 | two reflections restore the original heading modulo 2π and leave the second reflector as owner |
| Projectiles.OnHitSpec | backup/game/projectile.py:62-154 | a hit kills the projectile and sets the owner's gauge to min(MAX_HYPER, gauge + reward), with rewards 3, 7 and 15 by subtype; it is exactly MAX_HYPER once the sum reaches the cap, and a gauge within the cap never drops |
| Projectiles.Projectile.BeamProjectile | backup/game/projectile.py:75-83 | the new beam's state is the beam spawn state |
| Projectiles.Projectile.BallisticProjectile | backup/game/projectile.py:104-111 | the new shot's state is the ballistic spawn state |
| Projectiles.Projectile.MeleeProjectile | backup/game/projectile.py:125-135 | the new strike's state is the melee spawn state, 20 units ahead |
| Projectiles.Projectile.HomeTowards | backup/game/projectile.py:42-56 | the projectile's new state is the homing rule applied to its old state |
| Projectiles.Projectile.BaseUpdate | backup/game/projectile.py:20-40 | the base update is steering followed by flight |
| Projectiles.Projectile.Steer | backup/game/projectile.py:22-26 | a homing projectile turns towards the player that does not own it |
| Projectiles.Projectile.Advance | backup/game/projectile.py:28-40 | the new state is the flight step of the old |
| Projectiles.Projectile.Update | backup/game/projectile.py:20-144 | the new state is the full update rule (home, fly, melee follow) of the old |
| Projectiles.Projectile.OnHit | backup/game/projectile.py:62-154 | the new state and the returned owner gauge are the hit rule's |
| Projectiles.Projectile.Reflect | backup/game/projectile.py:66-71 | the new state is the reflection rule's |
| PlayerModel.Player.constructor | game/player.py:182-275 | a new player has the initial state: full health, no heat or gauge, not dashing, no cooldowns, no keys held, at the given spot; `InitialInv` proves it satisfies the player invariant |
| PlayerModel.Player.Reset | game/player.py:277-318 | the new state is the reset rule: back at the initial spot, full health, half gauge, no shield, hyper or burst, every key released; `ResetInv` proves the invariant afterwards |
| PlayerModel.Player.IsShielding | game/player.py:726-728 | true exactly when the shield is up |
| PlayerModel.Player.CollidesWith | game/player.py:730-735 | agrees with the value-level collision test (distance below the sum of the radii) |
| PlayerModel.Player.TakeDamage | game/player.py:718-724 | the new state is the damage rule; `TakeDamageSpec` says what it means |
| PlayerModel.Player.Update | game/player.py:320-439 | the new state and the projectiles fired are one `Tick` of the player rules; `TickPreservesInv` and `TickOwned` are proved about `Tick` |
| PlayerModel.Player.UpdateBeforeWeapons | game/player.py:330-436 | the new state and shots are the rules of update up to the weapons, in the source's order |
| PlayerModel.Player.FaceOpponent | game/player.py:330-337 | the player holds the new keys, faces the opponent and remembers its position |
| PlayerModel.Player.TickCountdowns | game/player.py:358-362 | the dash and shot cooldowns count down towards zero |
| PlayerModel.Player.Move | game/player.py:441-559 | the new state is the move rule; `DashingAfterMove`, `DashStart` and `MoveInv` say what it means |
| PlayerModel.Player.SteerWhileDashing | game/player.py:512-538 | the dashing branch of move: the overheat cut-off, then steering when a key is held |
| PlayerModel.Player.Displacement | game/player.py:540-559 | the step at walk or dash speed, clamped into the arena, with the dash cooldown restarted while dashing |
| PlayerModel.Player.StartOrStopDash | game/player.py:488-509 | the overheat cut-off, then starting a dash or releasing it |
| PlayerModel.Player.SteerDash | game/player.py:521-538 | only the dash record changes: heading eased towards the input, renormalised, and a ring every fourth frame |
| PlayerModel.Player.UpdateHeatFromMotion | game/player.py:342-350 | the speed-based heating rule; `HeatFromMotionBounds` bounds it |
| PlayerModel.Player.AgeDashRings | game/player.py:352-356 | only the rings change: each ages one frame and the live ones stay, in order |
| PlayerModel.Player.TickBurst | game/player.py:364-383 | the new state and shots are the burst-tick rule; `BurstShot` and `BurstWait` say what it means |
| PlayerModel.Player.DecayHeat | game/player.py:385-393 | the heat-cooling rule; `DecayHeatSpec` says what it means |
| PlayerModel.Player.TickHyper | game/player.py:395-405 | the hyper countdown rule; `HyperTickSpec` says what it means |
| PlayerModel.Player.DrainAtBorder | game/player.py:407-410 | the warning-band gauge drain while dashing |
| PlayerModel.Player.UpdateShield | game/player.py:412-436 | the shield rule; `ShieldStepSpec` says what it means |
| PlayerModel.Player.CreateProjectileWithAngle | game/player.py:669-691 | the shot and new state are the rule's: damage doubled in hyper mode, heat +10 and gauge +15, both capped |
| PlayerModel.Player.CreateProjectile | game/player.py:693-700 | a shot aimed at the opponent, as the rule builds it |
| PlayerModel.Player.FireWeaponBBurstShot | game/player.py:794-820 | one burst shot: fanned by (count − 2) × π/8, half speed, half damage, four times the lifetime |
| PlayerModel.Player.FireSpecialSpreadShot | game/player.py:822-860 | two spread shots π/16 apart, half speed, four times the lifetime |
| PlayerModel.Player.ActivateHyper | game/player.py:702-716 | the new state is the hyper activation rule |
| PlayerModel.Player.HandleWeapons | game/player.py:561-667 | the new state and the shots, in order, are the weapons rule's; nothing is fired with the shield up (`ShieldedHoldsFire`) |
| PlayerModel.Player.FireWeaponA | game/player.py:567-573 | the weapon-A branch: a beam at the opponent when the shot cooldown is over |
| PlayerModel.Player.FireWeaponB | game/player.py:575-596 | the weapon-B branch: a burst starts and its first shot goes out |
| PlayerModel.Player.FireSpecialAndWeaponB | game/player.py:598-635 | the special branch: a spread burst for 100 gauge, else one plain weapon-B shot |
| PlayerModel.Player.FireInHyper | game/player.py:641-666 | the hyper shot: the laser first, weapon-A beams after it |
| PlayerProperties.WalkingStride | game/player.py:443-552 | walking with one key moves PLAYER_SPEED along its axis; with two keys it moves PLAYER_SPEED/√2 along each, in the keys' directions |
| PlayerProperties.RootTwo | game/player.py:483-486 | the diagonal length √2 is positive and squares to 2 |
| PlayerProperties.DiagonalComponent | game/player.py:483-549 | a diagonal component is ±PLAYER_SPEED/√2 with the key's sign |
| PlayerProperties.DashingAfterMove | game/player.py:488-559 | after move the player dashes exactly when the dash key is held, heat is below MAX_HEAT, and a dash was running or could start (cooldown over, a direction held, heat below 200); full heat overheats; a dash restarts the cooldown |
| PlayerProperties.DashStart | game/player.py:495-507 | a dash that starts heats by 20 (capped, not when overheated), drops exactly one ring at the start point along the walking direction, and sets the cooldown |
| PlayerProperties.HeatFromMotionBounds | game/player.py:342-350 | speed heating changes only the heat, never downward from within the cap, never past MAX_HEAT, and not at all when overheated |
| PlayerProperties.DecayHeatSpec | game/player.py:385-393 | heat drops by HEAT_DECREASE_RATE only when positive and not dashing; within the cap the decay never sets the overheat flag and clears it exactly when the cooled heat is at most overheat_cooldown |
| PlayerProperties.AgeRingsSpec | game/player.py:40-356 | the ring loop keeps exactly the rings with more than one frame left, each one frame older, and never adds any |
| PlayerProperties.AgeRingsOk | game/player.py:352-356 | every ring kept is alive and no older than a fresh one |
| PlayerProperties.ShieldStepSpec | game/player.py:412-436 | the shield activates only with the key held, the previous shield over and 100 gauge, costs exactly 100 and starts the full duration; a raised shield counts down by one and drops at zero; the counter invariant is kept |
| PlayerProperties.ShieldedHoldsFire | game/player.py:563-565 | with the shield up handle_weapons fires nothing and changes nothing |
| PlayerProperties.TakeDamageSpec | game/player.py:718-724 | a shielded player is untouched; otherwise health drops by the amount, the gauge becomes min(MAX_HYPER, gauge + amount / 5), and nothing else changes |
| PlayerProperties.HyperKeySpec | game/player.py:637-716 | the hyper key activates exactly when the gauge holds 50, deducts exactly that and starts HYPER_DURATION frames with the laser not yet fired; otherwise nothing changes |
| PlayerProperties.HyperTickSpec | game/player.py:395-405 | a hyper frame burns one frame and one gauge point; the mode ends exactly when either runs out, and the gauge is then floored at zero |
| PlayerProperties.HyperLaserShot | game/player.py:641-691 | the first hyper shot is one laser of double 50 damage, radius 30, length 200, speed 7.5, aimed at the opponent; cooldown 40; 10 gauge on top of the usual shot heat and gain |
| PlayerProperties.AfterShotBounds | game/player.py:684-688 | every shot raises heat by 10 and gauge by 15, both capped, and changes nothing else |
| PlayerProperties.BurstShot | game/player.py:364-820 | a burst frame whose timer runs out fires shot k at base + (k − 2)·π/8 with half the (hyper-doubled) weapon-B damage, and the burst ends exactly when the count reaches 10 |
| PlayerProperties.BurstWait | game/player.py:364-369 | a burst frame whose timer has not run out only counts the timer down |
| PlayerProperties.SpecialStepIsDead | game/player.py:567-635 | the special spread never fires: weapon A or B has already set the cooldown this frame, or a running burst holds it, or weapon B is not held |
| PlayerProperties.InitialInv | game/player.py:182-275 | a new player satisfies the frame invariant (heat, gauge, health, shield, hyper, shot counters, rings) |
| PlayerProperties.ResetInv | game/player.py:277-318 | reset keeps the invariant |
| PlayerProperties.TakeDamageInv | game/player.py:718-724 | damage of a non-negative amount keeps the invariant |
| PlayerProperties.MoveInv | game/player.py:441-559 | move keeps the invariant |
| PlayerProperties.DashControlInv | game/player.py:493-509 | starting or releasing the dash keeps the invariant |
| PlayerProperties.DashSteerInv | game/player.py:511-538 | steering the dash keeps the invariant |
| PlayerProperties.BurstFrameInv | game/player.py:358-383 | the cooldown countdown and the burst frame keep the invariant |
| PlayerProperties.AfterBurstInv | game/player.py:385-436 | heat decay, hyper countdown, border drain and shield keep the invariant |
| PlayerProperties.WeaponAInv | game/player.py:567-573 | weapon A keeps the invariant |
| PlayerProperties.WeaponBInv | game/player.py:575-596 | weapon B keeps the invariant: a new burst has fired one shot, armed its timer and holds the cooldown |
| PlayerProperties.HyperStepsInv | game/player.py:637-666 | the hyper key and hyper shot keep the invariant |
| PlayerProperties.HandleWeaponsInv | game/player.py:561-667 | handle_weapons keeps the invariant |
| PlayerProperties.PreWeaponsInv | game/player.py:330-436 | the part of update before the weapons keeps the invariant |
| PlayerProperties.TickPreservesInv | game/player.py:320-439 | a whole frame of update keeps the invariant |
| CollisionRules.OwnerNotStruck | game/game.py:763-777 | a projectile never hurts its owner: the owner's health, heat and shield are untouched (only its gauge may gain the hit reward) |
| CollisionRules.UnshieldedHit | game/game.py:763-771 | an unshielded hit on player 1 takes damage × (1 + heat/100) off its health and adds a fifth of that to its gauge, capped at MAX_HYPER; the owner's gauge gains the subtype's reward, also capped; the projectile is removed |
| CollisionRules.ShieldedHit | game/game.py:772-774 | a hit on a raised shield changes neither player and keeps the projectile, reflected and now owned by the shield's player |
| CollisionRules.OneTargetPerProjectile | game/game.py:763-788 | a projectile hurts at most one player: player 2 is only checked when player 1 was not touched |
| CollisionRules.ResolveAllSpec | game/game.py:758-788 | the loop keeps at most the projectiles it was given, each unchanged or reflected, and leaves both players' heat and shield as they were |
| CollisionRules.HeatScaledNonneg | game/game.py:767-781 | a heat-scaled hit of non-negative damage on a player within the heat invariant is non-negative |
| CollisionRules.ResolveAllInv | game/game.py:758-788 | with non-negative damage the loop keeps both players' invariant and never raises their health |
| AiRules.PredictProjectileCollision | game/ai.py:179-218 | the loop's result is the scan over the list in order (`Predict`), whose meaning `PredictSpec` states |
| AiRules.IsProjectileNearby | game/ai.py:220-228 | true exactly when some opponent projectile of the list is closer than the threshold |
| AiProperties.LawfulSqrt | game/ai.py:202-203 | the square root the scan uses is a square root wherever the discriminant is non-negative |
| AiProperties.CompleteSquare | game/ai.py:194-203 | completing the square: 4a·(at² + bt + c) = (2at + b)² − (b² − 4ac) |
| AiProperties.QuadraticRoots | game/ai.py:198-203 | with a > 0, t is a root exactly when the discriminant is non-negative and 2at = −b ∓ √disc |
| AiProperties.TwoRoots | game/ai.py:202-203 | t1 ≤ t2, both are roots, and they are the only ones |
| AiProperties.HitTimeSpec | game/ai.py:198-209 | with a > 0 the hit time is the earliest positive root; there is none exactly when no positive root exists |
| AiProperties.ExpandSquare | game/ai.py:194-196 | the square (wt − d)² expanded, the step that ties the quadratic to a moving distance |
| AiProperties.CodeQuadraticLooksBack | game/ai.py:191-196 | the quadratic as written vanishes when the projectile, run backwards for t frames, touches the player |
| AiProperties.NoPositiveRoot | game/ai.py:198-209 | a quadratic with a, b and c all positive yields no hit time |
| AiProperties.CodeMissesApproach | game/ai.py:191-209 | as written, a projectile closing in from outside contact range is never predicted to hit |
| AiProperties.TrueQuadraticLooksAhead | game/ai.py:191-196 | with the sign of b corrected, the quadratic vanishes when the projectile, run forward for t frames, touches the player |
| AiProperties.TrueHitIsFirstContact | game/ai.py:191-209 | with the corrected quadratic, the hit time is the first future moment of contact |
| AiProperties.TrueFindsApproach | game/ai.py:191-209 | with the corrected quadratic, a moving projectile closing in from outside contact range whose path comes within reach is predicted to hit |
| AiProperties.PredictSpec | game/ai.py:179-218 | the threat is an opponent projectile of the list hitting within 60 frames, at the point it reaches then, and no opponent projectile hits sooner; there is none exactly when none hits within 60 frames |
| AiProperties.EvasionAxis | game/ai.py:36-56 | the evasion heading is the perpendicular (−sin a, cos a) of the projectile's heading or its opposite |
| AiProperties.EvasionSpec | game/ai.py:36-56 | the evasion heading is a unit vector across the projectile's path |
| AiProperties.EvasionTowardCentre | game/ai.py:46-53 | beyond 70% of the radius the evasion heading never points away from the centre |
| AiProperties.EvadeKeysSpec | game/ai.py:58-65 | evading presses at least one direction key and never two opposite ones, always dashes, fires nothing, and shields only for a hit due within 15 frames |
| AiProperties.MovementStyleSpec | game/ai.py:118-172 | no two opposite keys; dash on a draw below 0.4; styles 0-5 chase a far opponent and flee a near one on each axis; 6-7 circle it; 8 heads for the centre; 9-10 always move |
| AiProperties.AutoTestEvades | game/ai.py:32-86 | under a predicted hit the controller evades, dashes, fires nothing, and restarts its timer with the evasion keys stored |
| AiProperties.AutoTestWanders | game/ai.py:88-116 | with no predicted hit it walks the direction stored before this frame; it draws a new one and restarts the timer exactly when the timer reached the interval; hyper only with 100 gauge; the larger shield chance only with an opponent projectile within 70 |
| AiProperties.SimpleAiSpec | game/ai.py:230-269 | exactly one horizontal and one vertical key, towards a player 1 beyond 150 and away from a nearer one; never shield or special; weapon A only on frames divisible by 30; weapon B, dash and hyper only at close range; hyper only with 100 gauge every 180 frames |
| MatchRules.SettleSpec | game/game.py:408-427 | after the fighters a frame stays in its screen or decides the match; it decides it whenever a player is down at its end, except in an auto-test until knock-out, which it never ends there |
| MatchRules.AutoTestKeepsScreen | game/game.py:387-396 | the auto-test fighters leave the screen and the test timer and duration alone |
| MatchRules.VersusKeepsScreen | game/game.py:397-406 | the versus fighters leave the screen and the test timer and duration alone |
| MatchRules.AutoTestFrameSpec | game/game.py:369-427 | an auto-test frame ends at the title, stays in the test, or decides the match; a timed test goes to the title exactly when the timer has reached the duration, moving nobody; a test until knock-out stops exactly when a player was down as the frame began |
| MatchRules.IdleFrame | game/game.py:358-362 | outside the fighting screens a frame only advances the clock |
| MatchRules.TestTimerCounts | game/game.py:369-371 | the test timer counts auto-test frames and nothing else |
| MatchRules.TimedTestEnds | game/game.py:371-377 | a timed auto-test returns to the title exactly when the advanced timer reaches the duration, and that frame moves nobody |
| MatchRules.KnockoutTestEnds | game/game.py:379-424 | an auto-test until knock-out ends in the result screen exactly when a player was already down as the frame began |
| MatchRules.VersusEnds | game/game.py:397-434 | in versus and training a frame ends in the result screen exactly when a player is down at its end, and otherwise stays in its screen; training does not revive a downed player |
| MatchRules.WinnerRule | game/game.py:380-427 | whenever a frame decides the match, player 2 wins exactly when player 1 is down, and player 1 wins otherwise |
| MatchProperties.NewProjectileOwned | game/player.py:669-682 | a new projectile belongs to its shooter and is well formed |
| MatchProperties.CreateOwned | game/player.py:669-691 | creating a shot keeps the shooter on its side and fires only its own shot |
| MatchProperties.BurstTickOwned | game/player.py:364-383 | the burst frame fires only the shooter's own shots |
| MatchProperties.WeaponAOwned | game/player.py:567-573 | weapon A fires only the shooter's own shots |
| MatchProperties.WeaponBOwned | game/player.py:575-596 | weapon B fires only the shooter's own shots |
| MatchProperties.HyperOwned | game/player.py:637-666 | the hyper key fires only the shooter's own shots |
| MatchProperties.SpecialOwned | game/player.py:598-635 | the special branch fires only the shooter's own shots |
| MatchProperties.WeaponsOwned | game/player.py:561-667 | handle_weapons fires only the shooter's own, well-formed shots, in order |
| MatchProperties.MoveSide | game/player.py:441-559 | move keeps the player's side |
| MatchProperties.PreWeaponsOwned | game/player.py:320-436 | update up to the weapons keeps the side and fires only the burst's own shots |
| MatchProperties.OwnShotsJoin | game/game.py:1102-1104 | appending one owner's shots to that owner's shots gives that owner's shots |
| MatchProperties.TickOwned | game/player.py:320-439 | every projectile a player fires in a frame is its own and well formed, and the player stays on its side |
| MatchProperties.SurvivorsSound | game/game.py:408-412 | the projectile loop keeps only live projectiles, each the update of an old one, and no more than it was given |
| MatchProperties.SurvivorsComplete | game/game.py:408-412 | the projectile loop drops no projectile that is still alive after its update |
| MatchProperties.SurvivorsWellFormed | game/game.py:408-412 | the projectiles kept are well formed |
| MatchProperties.ResolveAllSides | game/game.py:758-788 | handle_collisions leaves each player on its side |
| MatchProperties.CollideOk | game/game.py:758-788 | handle_collisions keeps the world well formed |
| MatchProperties.FlightOk | game/game.py:408-412 | the projectile loop keeps the world well formed |
| MatchProperties.SettleOk | game/game.py:408-427 | projectiles, collisions and the knock-out check keep the world well formed |
| MatchProperties.ShotsJoin | game/game.py:1102-1104 | a player's own shots appended to a well-formed list keep it well formed |
| MatchProperties.MovePlayer1Ok | game/game.py:395-400 | player 1's frame, its shots appended, keeps the world well formed |
| MatchProperties.MovePlayer2Ok | game/game.py:396-406 | player 2's frame, its shots appended, keeps the world well formed |
| MatchProperties.AutoTestFightersOk | game/game.py:387-396 | the auto-test fighters keep the world well formed |
| MatchProperties.VersusFightersOk | game/game.py:397-406 | the versus fighters keep the world well formed |
| MatchProperties.FrameOk | game/game.py:358-434 | every frame keeps the world well formed: both players keep their invariant and sides, and every projectile belongs to one of them and does no negative damage |
| MatchProperties.AutoTestFrameOk | game/game.py:369-427 | an auto-test frame keeps the world well formed |
| MatchProperties.OpeningOk | game/game.py:19-56 | the world at start-up is well formed and nobody is down |
| MatchProperties.ResetMatchOk | game/game.py:1139-1163 | reset_players: both players get full health, no heat, an empty gauge and hyper off, at centre ∓ 100 on the centre line; the list is emptied and the AI walks reset; the world stays well formed; shield, dash, guns and overheat flag are not reset |
| GameModel.Game.constructor | game/game.py:19-85 | a new game is valid: the title screen, clock and test timer at 0, a 600-frame test, empty projectile list and AI memories, the players at the centre ∓ 100 with their initial state, the border fully opaque and fading, and the key tables loaded from the configuration file with player 1's first action highlighted |
| GameModel.Game.UpdatePlayer1 | game/game.py:395-1104 | player 1 takes one frame against player 2's position and its shots are appended to the list, in order; nothing else changes |
| GameModel.Game.UpdatePlayer2 | game/game.py:396-1104 | the same for player 2 against player 1 |
| GameModel.Game.ChooseAutoTestKeys | game/game.py:387-393 | both AI timers advance, both controllers choose keys, and the AI memories are written back |
| GameModel.Game.RunAutoTestFighters | game/game.py:387-396 | the two AI-driven players move, player 1 first |
| GameModel.Game.RunVersusFighters | game/game.py:397-406 | player 1 moves on the held keys; in versus, player 2 then moves on the simple AI's keys; in training it stays still |
| GameModel.Game.UpdateProjectiles | game/game.py:408-412 | the loop leaves the list holding the survivors of the projectiles' updates, in order (`SurvivorsSound`, `SurvivorsComplete`) |
| GameModel.Game.HandleCollisions | game/game.py:758-788 | the loop leaves the players and the list as the collision rules resolve them, projectile by projectile |
| GameModel.Game.Resolve | game/game.py:761-788 | one projectile of the collision loop: a heat-scaled hit with the owner credited, a reflection, or nothing |
| GameModel.Game.FinishFrame | game/game.py:408-427 | projectiles, collisions, and the switch to the result screen with the winner when a player is down (except in an auto-test until knock-out) |
| GameModel.Game.RunAutoTest | game/game.py:373-427 | the auto-test part of update after the timer advance: the title exit, the knock-out exit, or the fighters and the rest of the frame |
| GameModel.Game.BeginFight | game/game.py:360-367 | the clock advances, the screen is remembered for pausing, and the arena pulses; the game stays valid |
| GameModel.Game.TickTestTimer | game/game.py:371 | the automatic test's frame counter goes up by one and nothing else in the frame changes; the game stays valid |
| GameModel.Game.AutoTestRest | game/game.py:373-427 | the rest of an auto-test frame, keeping the game valid |
| GameModel.Game.VersusRest | game/game.py:397-427 | the rest of a versus or training frame, keeping the game valid |
| GameModel.Game.AutoTestUpdate | game/game.py:358-427 | an auto-test frame, keeping the game valid |
| GameModel.Game.VersusUpdate | game/game.py:358-427 | a versus or training frame, keeping the game valid |
| GameModel.Game.Update | game/game.py:358-434 | one frame is `Frame` of the old state, whose properties are the `MatchRules` lemmas above; the game stays valid and the key screen is untouched |
| GameModel.Game.Idle | game/game.py:358-362 | outside the fighting screens only the clock advances |
| GameModel.Game.ResetPlayers | game/game.py:1139-1163 | both players back at their start spots with full health, no heat, no gauge and no hyper; the list emptied; the AI memories cleared; the game stays valid |
| GameModel.Game.RemapKey | game/game.py:143-177 | only while waiting on the key screen: the awaited action is unbound and bound to the key in the edited player's table (player 1's also becomes the legacy table), the highlight moves to the next action cyclically, and the wait ends; otherwise nothing changes; the match state is untouched and the game stays valid |
| KeyConfig.Lookup | game/game.py:1315 | a dict lookup finds nothing exactly when no item has the key, and otherwise finds an item's action |
| KeyConfig.Put | game/game.py:157-1316 | after `d[k] = a` the key k gives a and every other key gives what it gave before; a dict stays a dict |
| KeyConfig.Delete | game/game.py:155-169 | after `del d[k]` the key k gives nothing and every other key gives what it gave before; a dict stays a dict |
| KeyConfig.DistinctKeys | game/constants.py:61-90 | a table whose keys are pairwise distinct is a dict |
| KeyConfig.LookupAll | game/game.py:1315 | in a dict every item is what its key looks up |
| KeyConfig.DefaultsKeyed | game/constants.py:61-90 | neither default table lists a key twice |
| KeyConfig.DefaultsAllowed | game/constants.py:61-90 | every default key is an allowed key |
| KeyConfig.DefaultKeysAllowed | game/constants.py:61-90 | every key either default table binds is allowed |
| KeyConfig.DefaultsBindAll | game/constants.py:61-107 | each default table gives every one of the ten actions a key |
| KeyConfig.ReadSettings | game/game.py:1267-1299 | the filter loop leaves the settings the entries build in order (`Retained`, stated by `RetainedSpec`) |
| KeyConfig.RetainedSpec | game/game.py:1272-1299 | the filtered settings bind exactly the allowed keys some entry parses to, each to the action of the last such entry |
| KeyConfig.RetainedKeyed | game/game.py:1267-1299 | the filtered settings are a dict |
| KeyConfig.ActionsDistinct | game/constants.py:96-107 | the ten action names are distinct |
| KeyConfig.Missing | game/game.py:1303-1309 | an action is missing exactly when it is one of the actions and no setting names it; the missing list repeats none |
| KeyConfig.FirstDefaultSpec | game/game.py:1313-1317 | the key found is a default key for the action, allowed and unused by the settings; none is found only when there is no such key |
| KeyConfig.FindDefault | game/game.py:1314-1317 | the search loop, stopping at the first match, finds `FirstDefault` |
| KeyConfig.FillMissing | game/game.py:1311-1325 | the fill loop's result is the fill of each missing action in turn |
| KeyConfig.FillAllSpec | game/game.py:1311-1325 | the fill keeps every configured binding and adds only allowed, unused default keys, each for an action being filled and no two for the same action |
| KeyConfig.FillAllCovers | game/game.py:1311-1325 | after the fill, an action being filled is left unnamed only when every allowed default key for it is already configured |
| KeyConfig.FillAllKeepsBound | game/game.py:1311-1325 | the fill keeps every action the settings already name |
| KeyConfig.MergeKeepsEntries | game/game.py:1267-1325 | a merged table binds only allowed keys and keeps each allowed configured key with the action of its last entry |
| KeyConfig.MergeFillsOnce | game/game.py:1311-1325 | a key the merge adds is an unused default key for an action the settings leave unnamed, and no such action gets two |
| KeyConfig.MergeCovers | game/game.py:1302-1325 | after the merge an action is unnamed only when every allowed default key for it is configured for something |
| KeyConfig.MergeNonEmpty | game/game.py:1311-1328 | with an allowed default key for "up", the merged table is never empty |
| KeyConfig.LoadKeyConfig | game/game.py:1236-1376 | the tables installed are `Loaded(config)`: defaults first, each non-empty merged table of a valid configuration replacing its default, the legacy table copied from player 1's |
| KeyConfig.LoadedWellFormed | game/game.py:1236-1376 | whatever the configuration, the installed tables are dicts of allowed keys and the legacy table is player 1's |
| KeyConfig.RemoveAction | game/game.py:153-169 | deleting over a copy of the items unbinds exactly the keys bound to the action; a dict stays a dict |
| KeyConfig.RemappedSpec | game/game.py:150-171 | after a remap the new key is the only key for the action, and every other key keeps its action unless that was the remapped one |
| KeyConfig.RemapKeepsCoverage | game/game.py:150-171 | a remap keeps every action bound unless the pressed key was the only key of another action |
| KeyConfig.RemapCanUnbind | game/game.py:164-171 | remapping "down" to player 2's W key leaves "up" with no key |

## Left out

- Drawing, zoom, the HUD, the shield and hyper visual effects, sounds and debug printing are left out: they have no behavioural contract. A dash ring is kept only as its position, heading and remaining frames. Those are what `Player.update` ages and removes.
- The screen and menu navigation of `game/states.py`, and the non-remap branches of `Game.handle_keydown` and `handle_keyup`. The held keys of the versus screen (`keys_pressed`) are the `held` parameter of `Game.Update`.
- `game/states.py` updates projectiles after collisions. This model follows `Game.update` in `game/game.py` instead: players, then projectiles, then collisions.
- `Player.update` takes the intent record as a parameter and stores it as its held keys before the frame, as `Game.update` calls it; `game/player.py` itself reads `key_states`. `Player.handle_key_event` is not modelled.
- The opponent is passed to `Player.update` and `Projectile.update` as its position, the only thing they read of it. A player is always attached to a game, so the source's `if self.game` guards are taken as true.
- `Projectile.on_hit` cannot name the owning player. It receives the owner's gauge and returns the new value, which the caller stores.
- The game keeps its projectiles as values in a `seq`. `Game.HandleCollisions` removes and reflects them by rebuilding the list in order, rather than mutating shared projectile objects. The `Projectile` class models the source's projectile object on its own.
- The auto-test controller and `decide_movement_style` are functions returning the new AI memory, which `Game` writes back; the game's fields are not shared through an `AIController` object. `game/game.py` carries an inline copy of the AI rules, and `Game.update` calls that copy; the model states them once, after `game/ai.py`.
- The walking direction of the AI is one `Movement` record, and the ten action flags of an intent are one `Intent` record.
- The random draws are inputs, and their distributions are not modelled.
- Floating-point rounding and the true values of trig and sqrt are not modelled: the `Math` functions are exact reals with only the laws in `Lawful`.
- The file I/O of `load_key_config` and `save_key_config`, JSON parsing, and entries whose action is not a string. The file's content is the `config` parameter, `None` when the file is missing or unreadable. A key string is parsed as an optional integer.
- Python dicts are lists of (key, action) items in insertion order.
- `KeyConfig.FillMissing` fills the missing actions in `ACTION_NAMES` order; the source iterates a set. Each action can only take a default key bound to itself, so the order does not change the result.
- GameModel.Game.RemapKey: its ensures states each key's binding after the remap, but not the order of the dict's items.
- `game/game.py` imports `KEY_MAPPING_P1`, `KEY_MAPPING_P2` and `KEY_MAPPING` from `game/constants.py`, which no longer defines them. The model keeps the three tables in the game's `keyConfig` field.
- The key-configuration screen's other fields (option menus, selected test time) are left out; the auto-test duration is a field that `Game.Update` reads, with `UntilKnockout` standing for `float('inf')`.
- The result screen's timer and its return to the title happen in `draw_result_screen`, which is not modelled; a decided match records the winner with the timer at 0.
- The training revive in `Game.update` (`game/game.py:429-434`) can never run: the state was just set to RESULT. The model does not revive, and `VersusEnds` states so.
- AiProperties.TrueFindsApproach: requires the projectile to be moving (a > 0) and the discriminant to be non-negative, that is, the path to come within reach. A positive closing speed implies the first, but the proof does not derive it.
- Projectiles.HomeTowardsSpec: bounds the turn by π × strength rather than stating the new heading exactly. The exact heading is the rule's own body.
- The grouped fields: the player's fields are held in seven records (body, dash, vitals, hyper, shield, guns, keys), and the game's key-configuration screen in one record, so that frame conditions stay small.
- The weapons of `backup/game/weapon.py` are `Weapon` records of type, damage and cooldown. The name is dropped, because no combat rule reads it.

## Findings

| source | as written | input that shows it | evidently intended | confidence | as-written member | corrected member |
|---|---|---|---|---|---|---|
| game/ai.py:191-196 | `b = 2·(v·D)` with D = player − projectile, so the roots are the times at which the projectile, run backwards, touches the player | a ballistic shot (radius 6) 100 units left of the player, flying straight at it at speed 8: a = 64, b = 1600, c = 10000 − 21² > 0, so both roots are negative and no threat is reported | `b = −2·(v·D)`, so that the smallest positive root is the first future contact | not executed | AiProperties.CodeMissesApproach | AiProperties.TrueHitIsFirstContact |

The controller in this model keeps the quadratic as written, because the game behaves that way. `CodeQuadraticLooksBack` and `TrueQuadraticLooksAhead` relate the two quadratics to the moving distance. `TrueFindsApproach` shows that the corrected quadratic detects the approaching shot.
