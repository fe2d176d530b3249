/**
 * Tuning constants of the combat core (game/constants.py and the class
 * attributes of game/player.py). Integers in the source stay integers here;
 * quantities the source mixes with floats (positions, heat, gauges) are reals.
 */
module Constants {
  // Arena geometry (screen 1280 x 720, centre at integer halves).
  const ARENA_RADIUS: real := 300.0
  const ARENA_CENTER_X: real := 640.0
  const ARENA_CENTER_Y: real := 360.0
  const ARENA_WARNING_RADIUS: real := ARENA_RADIUS - 20.0

  // Player movement and dash.
  const PLAYER_RADIUS: real := 15.0
  const PLAYER_SPEED: real := 5.0
  const PLAYER_DASH_SPEED: real := 9.0
  const DASH_RING_DURATION: int := 30
  const DASH_COOLDOWN: int := 5
  const DASH_TURN_SPEED: real := 0.15
  const DASH_RING_INTERVAL: int := 4
  /** A dash can only start below this heat. */
  const DASH_HEAT_LIMIT: real := 200.0
  const DASH_START_HEAT: real := 20.0

  // Shield, hyper mode and the gauges.
  const SHIELD_DURATION: int := 50
  const SHIELD_COST: real := 100.0
  const HYPER_DURATION: int := 180
  const MAX_HEALTH: real := 1000.0
  const MAX_HEAT: real := 300.0
  const MAX_HYPER: real := 300.0
  const HEAT_DECREASE_RATE: real := 1.0
  const HYPER_DECREASE_RATE_AT_BORDER: real := 2.0
  const HYPER_CONSUMPTION_RATE: real := 1.0
  const HYPER_ACTIVATION_COST: real := 50.0
  const HYPER_LASER_COST: real := 10.0
  /** Overheat clears once heat has fallen to this level (after a reset). */
  const OVERHEAT_COOLDOWN: real := 120.0

  // Every shot fired heats the shooter and charges its hyper gauge.
  const SHOT_HEAT: real := 10.0
  const SHOT_HYPER_GAIN: real := 15.0

  // Shooting cooldowns (frames).
  const WEAPON_A_COOLDOWN: int := 30
  const WEAPON_B_COOLDOWN: int := 60
  const SPECIAL_COOLDOWN: int := 15
  const HYPER_LASER_COOLDOWN: int := 40
  /** Hyper gauge the special spread spends when it starts. */
  const SPECIAL_SPREAD_COST: real := 100.0

  // Weapon-B burst.
  const BURST_DELAY: int := 5
  const BURST_TOTAL: int := 10

  // Hyper-gauge reward a projectile grants its owner on a hit.
  const BEAM_HIT_REWARD: real := 3.0
  const BALLISTIC_HIT_REWARD: real := 7.0
  const MELEE_HIT_REWARD: real := 15.0
}
