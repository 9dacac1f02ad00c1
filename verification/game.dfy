/**
 * The game's shared `state` object and active configuration `CFG`, and the
 * handlers that change them: starting, ticking, ending and resetting a
 * round, choosing a difficulty, and resolving a landed drop.
 *
 * `setInterval`/`clearInterval` belong to the host page. They are modelled
 * by the set `live` of interval ids the host is currently running and the
 * id `nextId` it hands out next; this is what lets the model state that no
 * interval is ever left running without a handle in `state`.
 */
module Game {
  import opened Wrappers
  import opened JsMath
  import opened Presets
  import opened Spawning
  import opened Rules

  /** A handle returned by `setInterval`, with the period it was armed at. */
  datatype Timer = Timer(id: nat, periodMs: int)

  /** The period of the round clock, in milliseconds. */
  const TICK_MS := 1000

  /** The interval ids a possibly-null handle field holds. */
  function Ids(t: Option<Timer>): set<nat> {
    if t.Some? then {t.value.id} else {}
  }

  class Game {
    var cfg: Config
    var difficulty: string
    var time: int
    var score: int
    var pollution: int
    var clean: int
    var dirty: int
    var speedMul: int
    var currentSpawn: int
    var running: bool
    var tick: Option<Timer>
    var spawner: Option<Timer>
    var live: set<nat>
    var nextId: nat

    /** The counters the scoring rules act on. */
    function Counters(): Tally
      reads this
    {
      Tally(score, pollution, clean, dirty, speedMul, currentSpawn)
    }

    /**
     * The running intervals are exactly those whose handles `state` holds,
     * the two handles are distinct, and every id was handed out already.
     */
    ghost predicate TimersAccounted()
      reads this
    {
      && live == Ids(tick) + Ids(spawner)
      && (tick.Some? && spawner.Some? ==> tick.value.id != spawner.value.id)
      && 0 < nextId
      && (forall id :: id in live ==> 0 < id < nextId)
    }

    /** The object invariant between handler calls. */
    ghost predicate Valid()
      reads this
    {
      && WellFormed(cfg)
      && Bounded(cfg, Counters())
      && 0 <= time <= cfg.duration
      && (tick.Some? ==> 0 < time)
      && TimersAccounted()
    }

    /** A round in progress: the clock ticks every second and the spawner runs at `currentSpawn`. */
    ghost predicate Armed()
      reads this
    {
      && running
      && tick.Some? && tick.value.periodMs == TICK_MS
      && spawner.Some? && spawner.value.periodMs == currentSpawn
    }

    /** No round in progress and no interval running. */
    ghost predicate Idle()
      reads this
    {
      !running && tick.None? && spawner.None?
    }

    /** Loading the page: the initial `CFG` and `state`, then `showStart()`. */
    constructor ()
      ensures Valid() && Idle() && live == {}
      ensures cfg == Preset(Normal) && difficulty == KeyOf(Normal)
      ensures Counters() == Initial(cfg) && time == cfg.duration
    {
      cfg := Preset(Normal);
      difficulty := "normal";
      time := Preset(Normal).duration;
      score, pollution, clean, dirty := 0, 0, 0, 0;
      tick, spawner := None, None;
      running := false;
      speedMul := 100;
      currentSpawn := Preset(Normal).spawn;
      live, nextId := {}, 1;
      new;
      ShowStart();
    }

    /** The host's `setInterval`: a new interval with a fresh id. */
    method SetInterval(periodMs: int) returns (t: Timer)
      modifies this`live, this`nextId
      ensures t == Timer(old(nextId), periodMs)
      ensures live == old(live) + {t.id} && nextId == old(nextId) + 1
    {
      t := Timer(nextId, periodMs);
      live := live + {nextId};
      nextId := nextId + 1;
    }

    /** The host's `clearInterval`. */
    method ClearInterval(t: Timer)
      modifies this`live
      ensures live == old(live) - {t.id}
    {
      live := live - {t.id};
    }

    /** `clearTimers`: stop both intervals and forget their handles. */
    method ClearTimers()
      requires TimersAccounted()
      modifies this`tick, this`spawner, this`live
      ensures TimersAccounted()
      ensures tick.None? && spawner.None? && live == {}
    {
      if tick.Some? {
        ClearInterval(tick.value);
        tick := None;
      }
      if spawner.Some? {
        ClearInterval(spawner.value);
        spawner := None;
      }
    }

    /** `resetState`: the counters and clock return to their start values for `cfg`. */
    method ResetState()
      requires WellFormed(cfg) && TimersAccounted()
      modifies this`time, this`score, this`pollution, this`clean, this`dirty
      modifies this`running, this`speedMul, this`currentSpawn
      ensures Valid() && !running
      ensures Counters() == Initial(cfg) && time == cfg.duration
    {
      time := cfg.duration;
      score := 0;
      pollution := 0;
      clean := 0;
      dirty := 0;
      running := false;
      speedMul := 100;
      currentSpawn := cfg.spawn;
    }

    /**
     * `applyDifficulty`: record the chosen key and make its preset the active
     * configuration. A key with no preset leaves `cfg` as it was.
     */
    method ApplyDifficulty(checked: Option<string>) returns (known: bool)
      requires WellFormed(cfg)
      modifies this`difficulty, this`cfg
      ensures WellFormed(cfg)
      ensures difficulty == ChosenKey(checked)
      ensures known <==> Lookup(difficulty).Some?
      ensures known ==> cfg == Preset(Lookup(difficulty).value)
      ensures !known ==> cfg == old(cfg)
    {
      difficulty := ChosenKey(checked);
      var d := Lookup(difficulty);
      known := d.Some?;
      if known {
        cfg := Preset(d.value);
      }
    }

    /**
     * `start`: replace any running intervals by a fresh one-second clock and
     * a fresh spawner at the current interval.
     */
    method Start()
      requires TimersAccounted()
      modifies this`running, this`tick, this`spawner, this`live, this`nextId
      ensures TimersAccounted() && Armed()
      ensures live == Ids(tick) + Ids(spawner) && old(live) !! live
    {
      ClearTimers();
      running := true;
      var t := SetInterval(TICK_MS);
      tick := Some(t);
      var s := SetInterval(currentSpawn);
      spawner := Some(s);
    }

    /**
     * The clock callback: one second less; when none is left the round ends
     * as a win.
     */
    method Tick() returns (won: bool)
      requires Valid() && tick.Some?
      modifies this`time, this`running, this`tick, this`spawner, this`live
      ensures Valid() && Counters() == old(Counters())
      ensures time == old(time) - 1
      ensures won <==> time <= 0
      ensures won ==> Idle()
      ensures !won ==> running == old(running) && tick == old(tick) && spawner == old(spawner)
    {
      time := time - 1;
      won := time <= 0;
      if won {
        var _, _ := EndRound(true);
      }
    }

    /**
     * `endRound`: stop both intervals and leave the round. The end screen
     * shows `people` (the score, not below 0) and plays confetti on a win.
     */
    method EndRound(isWin: bool) returns (people: int, confetti: bool)
      requires TimersAccounted()
      modifies this`running, this`tick, this`spawner, this`live
      ensures TimersAccounted() && Idle() && live == {}
      ensures people == Max(0, score) && confetti == isWin
    {
      ClearTimers();
      running := false;
      people := Max(0, score);
      confetti := isWin;
    }

    /** `resetAndStart` (the replay and reset buttons): a fresh round with the active configuration. */
    method ResetAndStart()
      requires WellFormed(cfg) && TimersAccounted()
      modifies this`time, this`score, this`pollution, this`clean, this`dirty
      modifies this`running, this`speedMul, this`currentSpawn
      modifies this`tick, this`spawner, this`live, this`nextId
      ensures Valid() && Armed()
      ensures Counters() == Initial(cfg) && time == cfg.duration
      ensures spawner.value.periodMs == cfg.spawn
      ensures old(live) !! live
    {
      ResetState();
      Start();
    }

    /** `showStart` (the menu button, and page load): no intervals, reset counters. */
    method ShowStart()
      requires WellFormed(cfg) && TimersAccounted()
      modifies this`time, this`score, this`pollution, this`clean, this`dirty
      modifies this`running, this`speedMul, this`currentSpawn
      modifies this`tick, this`spawner, this`live
      ensures Valid() && Idle() && live == {}
      ensures Counters() == Initial(cfg) && time == cfg.duration
    {
      ClearTimers();
      ResetState();
    }

    /** The start button: choose the difficulty, then `resetAndStart`. */
    method PressStart(checked: Option<string>) returns (known: bool)
      requires WellFormed(cfg) && TimersAccounted()
      modifies this
      ensures Valid() && Armed()
      ensures difficulty == ChosenKey(checked)
      ensures known <==> Lookup(difficulty).Some?
      ensures known ==> cfg == Preset(Lookup(difficulty).value)
      ensures !known ==> cfg == old(cfg)
      ensures Counters() == Initial(cfg) && time == cfg.duration
      ensures old(live) !! live
    {
      known := ApplyDifficulty(checked);
      ResetAndStart();
    }

    /**
     * The obstacle's re-arming of the spawner: stop the current one, if any,
     * and start a fresh one at the current interval.
     */
    method ReArmSpawner()
      requires TimersAccounted()
      modifies this`spawner, this`live, this`nextId
      ensures TimersAccounted()
      ensures spawner == Some(Timer(old(nextId), currentSpawn))
      ensures live == old(live) - Ids(old(spawner)) + {old(nextId)}
      ensures old(nextId) !in old(live)
    {
      if spawner.Some? {
        ClearInterval(spawner.value);
      }
      var s := SetInterval(currentSpawn);
      spawner := Some(s);
    }

    /**
     * `checkCollision`: apply the landing rules to the counters; a caught
     * obstacle replaces the spawner by one at the new interval; then, caught
     * or not, a pollution of 100 or more ends the round as a loss. There is
     * no check that a round is running.
     */
    method CheckCollision(kind: Kind, dropRect: Rect, canRect: Rect) returns (lost: bool)
      requires Valid()
      modifies this`score, this`pollution, this`clean, this`dirty, this`speedMul, this`currentSpawn
      modifies this`running, this`tick, this`spawner, this`live, this`nextId
      ensures Valid() && time == old(time)
      ensures Counters() == Resolve(cfg, old(Counters()), kind, Overlaps(dropRect, canRect))
      ensures lost <==> PollutionMaxed(Counters())
      ensures old(PollutionMaxed(Counters())) ==> lost
      ensures lost ==> Idle() && live == {}
      ensures !lost ==> running == old(running) && tick == old(tick)
      ensures !lost && Overlaps(dropRect, canRect) && kind == Obstacle ==>
        && spawner.Some? && spawner.value.periodMs == currentSpawn
        && spawner.value.id !in old(live) && Ids(old(spawner)) !! live
      ensures !lost && !(Overlaps(dropRect, canRect) && kind == Obstacle) ==>
        spawner == old(spawner) && live == old(live)
      ensures old(Armed()) && !lost ==> Armed()
    {
      if Overlaps(dropRect, canRect) {
        match kind
        case Clean =>
          score := score + 1;
          clean := Min(100, clean + 10);
        case Dirty =>
          score := Max(0, score - 1);
          pollution := Min(100, pollution + 10);
          dirty := Min(100, dirty + 10);
        case Obstacle =>
          score := Max(0, score - 2);
          speedMul := speedMul + cfg.speedStep;
          currentSpawn := Max(cfg.minSpawn, currentSpawn - 80);
          ReArmSpawner();
      }
      lost := pollution >= 100;
      if lost {
        var _, _ := EndRound(false);
      }
    }
  }
}
