/**
 * The newer game's window (Zapoctak.Net1/Form1.cs): the level being played,
 * the buttons, the text label, the gravity scroll bar and the timer handler
 * that drives a level. The scroll-bar part of `Level.Activate` lives here,
 * since it only touches the form's controls.
 */
module Forms {
  import opened Wrappers
  import opened PowerUps
  import Physics
  import opened LevelInput
  import opened LevelReader
  import opened WinConditions
  import opened Plugins
  import opened Levels
  import Int32

  const PlayLabel: string := ">"
  const PauseLabel: string := "| |"

  /** Why the window's code stops with an exception. */
  datatype Crash =
    | LoadFailed(fault: Fault)    // the first level file could not be read
    | PluginRejected              // `LoadPlugins` threw
    | ScrollBarRejected           // the gravity value lies outside the scroll bar's range
    | VictoryCheckFailed          // `CheckVictory` threw

  /** The gravity scroll bar: its range, its position and the step of one notch. */
  datatype ScrollBar = ScrollBar(minimum: int, maximum: int, value: int, smallChange: int)

  /** A scroll bar never shows a position outside its range. */
  predicate InRange(b: ScrollBar) {
    b.minimum <= b.value <= b.maximum
  }

  /** The timer's tick counter after one more tick: it counts from 0 to 9, then starts over. */
  function NextCount(counter: int): int {
    (counter + 1) % 10
  }

  /** The value nearest to `x` within `[lo, hi]`. */
  function Clamp(x: int, lo: int, hi: int): (r: int)
    requires lo <= hi
  {
    if x < lo then lo else if x > hi then hi else x
  }

  function Distance(a: int, b: int): nat {
    if a < b then b - a else a - b
  }

  /** `Clamp` lands in the range, keeps a value already in it, and nothing in the range is nearer to `x`. */
  lemma ClampMeaning(x: int, lo: int, hi: int)
    requires lo <= hi
    ensures lo <= Clamp(x, lo, hi) <= hi
    ensures lo <= x <= hi ==> Clamp(x, lo, hi) == x
    ensures forall y :: lo <= y <= hi ==> Distance(Clamp(x, lo, hi), x) <= Distance(y, x)
  {
  }

  /** `SmallChange * e.Delta / 50`, with C#'s truncating division. */
  function WheelChange(smallChange: int, delta: int): int {
    Int32.TruncDiv(smallChange * delta, 50)
  }

  /** A wheel turned one way moves the bar that way, or not at all. */
  lemma WheelChangeSign(smallChange: int, delta: int)
    requires smallChange >= 0
    ensures delta >= 0 ==> WheelChange(smallChange, delta) >= 0
    ensures delta <= 0 ==> WheelChange(smallChange, delta) <= 0
    ensures WheelChange(smallChange, -delta) == -WheelChange(smallChange, delta)
  {
    assert smallChange * -delta == -(smallChange * delta);
    Int32.TruncDivOdd(smallChange * delta, 50);
  }

  /** The position `Activate` gives the bar: the level's gravity, but not below the minimum. */
  function ActivatedValue(gravityConst: int, minimum: int): int {
    if gravityConst > minimum then gravityConst else minimum
  }

  /** `Level.Activate` gets through: the position it sets lies within the range it sets. */
  predicate GravityFits(gravityConst: int, minimum: int, maximum: int) {
    ActivatedValue(gravityConst, minimum) <= maximum
  }

  /** The scroll bar `Level.Activate` leaves when it gets through. */
  function ActivatedBar(gravityConst: int, minimum: int, maximum: int): ScrollBar {
    ScrollBar(minimum, maximum, ActivatedValue(gravityConst, minimum), Int32.TruncDiv(maximum - minimum, 20))
  }

  class Form1 {
    var currentLevel: Level
    /** Every level reachable from the current one through the previous and next links. */
    ghost var levels: set<Level>
    var timeCheckCounter: int
    var textLabel: string
    var startText: string
    var startEnabled: bool
    var nextEnabled: bool
    var previousEnabled: bool
    var gravityScrollBar: ScrollBar

    ghost predicate Valid()
      reads this, levels`nextLevel
    {
      currentLevel in levels
      && (forall l :: l in levels ==> l.Valid())
      && (forall l :: l in levels && l.previousLevel != null ==> l.previousLevel in levels)
      && (forall l :: l in levels && l.nextLevel != null ==> l.nextLevel in levels && l.nextLevel.previousLevel == l)
      && 0 <= timeCheckCounter < 10
      && InRange(gravityScrollBar)
    }

    /** The buttons tell what the current level allows. */
    predicate ButtonsShowLevel()
      reads this, currentLevel
    {
      nextEnabled == !currentLevel.IsLastLevel()
      && previousEnabled == !currentLevel.IsFirstLevel()
      && startText == (if currentLevel.isRunning then PauseLabel else PlayLabel)
      && startEnabled == !currentLevel.isEnded
    }

    /** The window with its first level, before `Form1_Load` sets it up. */
    constructor (first: Level, bar: ScrollBar)
      requires first.Valid() && first.previousLevel == null && first.nextLevel == null && InRange(bar)
      ensures Valid() && currentLevel == first && levels == {first} && gravityScrollBar == bar
      ensures timeCheckCounter == 0 && textLabel == ""
    {
      currentLevel := first;
      levels := {first};
      timeCheckCounter := 0;
      textLabel := "";
      startText := PlayLabel;
      startEnabled := true;
      nextEnabled := false;
      previousEnabled := false;
      gravityScrollBar := bar;
    }

    /** `UpdateButtons`. */
    method UpdateButtons()
      modifies this`nextEnabled, this`previousEnabled, this`startText, this`startEnabled
      ensures ButtonsShowLevel()
    {
      nextEnabled := !currentLevel.IsLastLevel();
      previousEnabled := !currentLevel.IsFirstLevel();
      startText := if currentLevel.isRunning then PauseLabel else PlayLabel;
      startEnabled := !currentLevel.isEnded;
    }

    /**
     * The scroll-bar part of `Level.Activate`: the range becomes the engine's
     * gravity bounds, the position its gravity (at least the minimum) and a
     * notch a twentieth of the range. A position outside the range throws.
     */
    method Activate() returns (ok: bool)
      requires Valid()
      modifies this`gravityScrollBar
      ensures Valid()
      ensures var p := currentLevel.physics;
        ok <==> ActivatedValue(p.gravityConst, p.minGravity) <= p.maxGravity
      ensures var p := currentLevel.physics;
        ok ==> gravityScrollBar == ScrollBar(p.minGravity, p.maxGravity, ActivatedValue(p.gravityConst, p.minGravity),
                                             Int32.TruncDiv(p.maxGravity - p.minGravity, 20))
      ensures !ok ==> gravityScrollBar == old(gravityScrollBar)
    {
      var p := currentLevel.physics;
      var value := if p.gravityConst > p.minGravity then p.gravityConst else p.minGravity;
      if value > p.maxGravity {
        return false;
      }
      gravityScrollBar := ScrollBar(p.minGravity, p.maxGravity, value, Int32.TruncDiv(p.maxGravity - p.minGravity, 20));
      return true;
    }

    /** `StartStopButton_Click`: a running level pauses, a paused one runs. */
    method StartStopClick()
      requires Valid()
      modifies currentLevel`isRunning, this`startText
      ensures Valid()
      ensures currentLevel.isRunning == !old(currentLevel.isRunning)
      ensures startText == (if currentLevel.isRunning then PauseLabel else PlayLabel)
    {
      if currentLevel.isRunning {
        currentLevel.Stop();
        startText := PlayLabel;
      } else {
        currentLevel.Start();
        startText := PauseLabel;
      }
    }

    /**
     * `SwitchLevelTo`: the level becomes current and is activated; the label
     * shows its description and the buttons its state. The new `Timer` the
     * source makes is never used, so it is not modelled.
     */
    method SwitchLevelTo(level: Level) returns (ok: bool)
      requires Valid() && level in levels
      modifies this`currentLevel, this`gravityScrollBar, this`textLabel,
               this`nextEnabled, this`previousEnabled, this`startText, this`startEnabled
      ensures Valid() && currentLevel == level
      ensures ok ==> textLabel == level.description && ButtonsShowLevel()
      ensures ok <==> ActivatedValue(level.physics.gravityConst, level.physics.minGravity) <= level.physics.maxGravity
      ensures ok ==> gravityScrollBar == ActivatedBar(level.physics.gravityConst, level.physics.minGravity, level.physics.maxGravity)
      ensures !ok ==> gravityScrollBar == old(gravityScrollBar)
    {
      currentLevel := level;
      ok := Activate();
      if !ok {
        return;
      }
      textLabel := level.description;
      UpdateButtons();
    }

    /** `PreviousButton_Click`, enabled only when there is a previous level. */
    method PreviousClick() returns (ok: bool)
      requires Valid() && currentLevel.previousLevel != null
      modifies currentLevel`isRunning, this`currentLevel, this`gravityScrollBar, this`textLabel,
               this`nextEnabled, this`previousEnabled, this`startText, this`startEnabled
      ensures Valid() && currentLevel == old(currentLevel.previousLevel) && !old(currentLevel).isRunning
      ensures ok ==> textLabel == currentLevel.description && ButtonsShowLevel()
      ensures var p := currentLevel.physics;
        (ok <==> GravityFits(p.gravityConst, p.minGravity, p.maxGravity))
        && (ok ==> gravityScrollBar == ActivatedBar(p.gravityConst, p.minGravity, p.maxGravity))
    {
      currentLevel.Stop();
      ok := SwitchLevelTo(currentLevel.previousLevel);
    }

    /**
     * `NextButton_Click`, enabled only when the level names a next file: the
     * next level is built on first use and reused afterwards.
     */
    method NextClick() returns (r: Option<Crash>)
      requires Valid() && currentLevel.nextLevelPath.Some?
      modifies currentLevel`isRunning, currentLevel`nextLevel, this`levels, this`currentLevel,
               this`gravityScrollBar, this`textLabel,
               this`nextEnabled, this`previousEnabled, this`startText, this`startEnabled
      ensures Valid() && !old(currentLevel).isRunning
      ensures var loaded := LoadLevel(old(currentLevel).env, old(currentLevel.nextLevelPath).value);
        old(currentLevel.nextLevel) == null && loaded.Failure? ==> r == Some(LoadFailed(loaded.error)) && currentLevel == old(currentLevel)
      ensures var loaded := LoadLevel(old(currentLevel).env, old(currentLevel.nextLevelPath).value);
        old(currentLevel.nextLevel) == null && loaded.Success? ==>
          fresh(currentLevel) && currentLevel.data == loaded.value && currentLevel.Loaded()
          && currentLevel.currentPath == old(currentLevel.nextLevelPath).value
          && (r.None? <==> GravityFits(loaded.value.physics.gravityConst, loaded.value.physics.minGravity, loaded.value.physics.maxGravity))
      ensures old(currentLevel.nextLevel) != null ==>
        currentLevel == old(currentLevel.nextLevel)
        && (r.None? <==> GravityFits(currentLevel.physics.gravityConst, currentLevel.physics.minGravity, currentLevel.physics.maxGravity))
      ensures r.None? ==> currentLevel == old(currentLevel).nextLevel && currentLevel.previousLevel == old(currentLevel)
                          && textLabel == currentLevel.description && ButtonsShowLevel()
                          && gravityScrollBar == ActivatedBar(currentLevel.physics.gravityConst, currentLevel.physics.minGravity,
                                                              currentLevel.physics.maxGravity)
    {
      currentLevel.Stop();
      var next := LoadNext();
      if next.Failure? {
        return Some(next.error);
      }
      var ok := SwitchLevelTo(next.value);
      r := if ok then None else Some(ScrollBarRejected);
    }

    /** The current level's next level, built on first use, joins the window's levels. */
    method LoadNext() returns (r: Result<Level?, Crash>)
      requires Valid() && currentLevel.nextLevelPath.Some?
      modifies currentLevel`nextLevel, this`levels
      ensures Valid()
      ensures var loaded := LoadLevel(currentLevel.env, currentLevel.nextLevelPath.value);
        old(currentLevel.nextLevel) == null && loaded.Failure? ==> r == Failure(LoadFailed(loaded.error))
      ensures r.Success? ==> r.value != null && r.value == currentLevel.nextLevel && r.value in levels
                             && r.value.previousLevel == currentLevel
      ensures old(currentLevel.nextLevel) != null ==> r == Success(old(currentLevel.nextLevel))
      ensures var loaded := LoadLevel(currentLevel.env, currentLevel.nextLevelPath.value);
        old(currentLevel.nextLevel) == null ==>
          (r.Success? <==> loaded.Success?)
          && (r.Success? ==> fresh(r.value) && r.value.data == loaded.value && r.value.Loaded()
                             && r.value.currentPath == currentLevel.nextLevelPath.value && r.value.env == currentLevel.env
                             && r.value.nextLevel == null && !r.value.isRunning && !r.value.isEnded)
    {
      var next := currentLevel.NextLevel();
      if next.Failure? {
        return Failure(LoadFailed(next.error));
      }
      levels := levels + {next.value};
      return Success(next.value);
    }

    /** `RestartButton_Click`: the level starts over, stopped. */
    method RestartClick() returns (ok: bool)
      requires Valid()
      modifies currentLevel`suns, currentLevel`planets, currentLevel`powerUps, currentLevel`scaleFactor,
               currentLevel`timeLimit, currentLevel`goals, currentLevel`nextLevelPath, currentLevel`pending,
               currentLevel`description, currentLevel`isRunning, currentLevel`isEnded,
               currentLevel.physics`maxSafeDistance, currentLevel.physics`gravityConst, currentLevel.planetCountByType,
               this`gravityScrollBar, this`textLabel,
               this`nextEnabled, this`previousEnabled, this`startText, this`startEnabled
      ensures Valid() && currentLevel.Loaded() && !currentLevel.isRunning && !currentLevel.isEnded
      ensures currentLevel.pending == [] && textLabel == currentLevel.description && ButtonsShowLevel()
      ensures var p := currentLevel.data.physics;
        (ok <==> GravityFits(p.gravityConst, p.minGravity, p.maxGravity))
        && (ok ==> gravityScrollBar == ActivatedBar(p.gravityConst, p.minGravity, p.maxGravity))
        && (!ok ==> gravityScrollBar == old(gravityScrollBar))
    {
      currentLevel.Reset();
      UpdateButtons();
      textLabel := currentLevel.description;
      ok := Activate();
    }

    /** `GravityScrollBar_Scroll`: the player moved the bar to `value`; the gravity follows. */
    method GravityScroll(value: int)
      requires Valid() && gravityScrollBar.minimum <= value <= gravityScrollBar.maximum
      modifies this`gravityScrollBar, currentLevel.physics`gravityConst
      ensures Valid() && gravityScrollBar == old(gravityScrollBar).(value := value)
      ensures currentLevel.physics.gravityConst == value
    {
      gravityScrollBar := gravityScrollBar.(value := value);
      currentLevel.physics.SetGravityConst(gravityScrollBar.value);
    }

    /**
     * `Form1_MouseWheel`: the bar moves by the wheel's change, stopping at the
     * ends of its range, and the gravity follows.
     */
    method MouseWheel(delta: int)
      requires Valid()
      modifies this`gravityScrollBar, currentLevel.physics`gravityConst
      ensures Valid()
      ensures var b := old(gravityScrollBar);
        gravityScrollBar == b.(value := Clamp(b.value + WheelChange(b.smallChange, delta), b.minimum, b.maximum))
      ensures currentLevel.physics.gravityConst == gravityScrollBar.value
    {
      var change := Int32.TruncDiv(gravityScrollBar.smallChange * delta, 50);
      var b := gravityScrollBar;
      if b.value + change >= b.minimum && b.value + change <= b.maximum {
        gravityScrollBar := b.(value := b.value + change);
      } else if b.value + change < b.minimum {
        gravityScrollBar := b.(value := b.minimum);
      } else if b.value + change > b.maximum {
        gravityScrollBar := b.(value := b.maximum);
      }
      currentLevel.physics.SetGravityConst(gravityScrollBar.value);
    }

    /**
     * One timer tick while the level runs: `Timer1_Tick`, then the keepers
     * that were subscribed when the tick was raised. Every tenth tick checks
     * the time limit; when it is up the level ends and is judged. `false`
     * stands for `CheckVictory` throwing, which also keeps the keepers from
     * running.
     */
    method Timer1Tick(nowMs: int) returns (ok: bool)
      requires Valid() && currentLevel.isRunning
      modifies this`timeCheckCounter, this`textLabel,
               this`nextEnabled, this`previousEnabled, this`startText, this`startEnabled,
               currentLevel`suns, currentLevel`planets, currentLevel`powerUps, currentLevel`timeLimit,
               currentLevel`pending, currentLevel`isRunning, currentLevel`isEnded, currentLevel`loseMessage,
               currentLevel.physics`maxSafeDistance, currentLevel.planetCountByType
      ensures Valid()
      ensures var s1 := Physics.Tick(old(currentLevel.State()), nowMs);
        var timeUp := old(timeCheckCounter) == 9 && TimeIsUp(nowMs, s1.timeLimit);
        !timeUp ==>
          ok && currentLevel.State() == AfterKeepers(s1, |old(currentLevel.pending)|, old(currentLevel.isEnded), nowMs)
          && timeCheckCounter == NextCount(old(timeCheckCounter)) && textLabel == old(textLabel)
          && currentLevel.isRunning && currentLevel.isEnded == old(currentLevel.isEnded)
      ensures var s1 := Physics.Tick(old(currentLevel.State()), nowMs);
        var timeUp := old(timeCheckCounter) == 9 && TimeIsUp(nowMs, s1.timeLimit);
        var verdict := Verdict(currentLevel.goals, s1.planets);
        timeUp ==>
          !currentLevel.isRunning && currentLevel.isEnded && ButtonsShowLevel()
          && (ok <==> AllLiveDeclared(s1.planets) && !verdict.faulted)
          && (ok ==> currentLevel.State() == AfterKeepers(s1, |old(currentLevel.pending)|, true, nowMs)
                     && currentLevel.loseMessage == old(currentLevel.loseMessage) + verdict.appended
                     && textLabel == (if verdict.victory then WinMessage else currentLevel.loseMessage)
                     && timeCheckCounter == 0)
          && (!ok ==> currentLevel.State() == s1)
    {
      var subscribed := |currentLevel.pending|;
      currentLevel.Tick(nowMs);
      ok := CheckTimeThenKeepers(subscribed, nowMs);
    }

    /**
     * The rest of the tick once the engine has run: on every tenth tick the
     * time check, then the counter, then the first `subscribed` keepers.
     */
    method CheckTimeThenKeepers(subscribed: nat, nowMs: int) returns (ok: bool)
      requires Valid() && currentLevel.isRunning && subscribed <= |currentLevel.pending|
      modifies this`timeCheckCounter, this`textLabel,
               this`nextEnabled, this`previousEnabled, this`startText, this`startEnabled,
               currentLevel`suns, currentLevel`planets, currentLevel`powerUps,
               currentLevel`pending, currentLevel`isRunning, currentLevel`isEnded, currentLevel`loseMessage,
               currentLevel.planetCountByType
      ensures Valid()
      ensures var s1 := old(currentLevel.State());
        var timeUp := old(timeCheckCounter) == 9 && TimeIsUp(nowMs, s1.timeLimit);
        !timeUp ==>
          ok && currentLevel.State() == AfterKeepers(s1, subscribed, old(currentLevel.isEnded), nowMs)
          && timeCheckCounter == NextCount(old(timeCheckCounter)) && textLabel == old(textLabel)
          && currentLevel.isRunning && currentLevel.isEnded == old(currentLevel.isEnded)
      ensures var s1 := old(currentLevel.State());
        var timeUp := old(timeCheckCounter) == 9 && TimeIsUp(nowMs, s1.timeLimit);
        var verdict := Verdict(currentLevel.goals, s1.planets);
        timeUp ==>
          !currentLevel.isRunning && currentLevel.isEnded && ButtonsShowLevel()
          && (ok <==> AllLiveDeclared(s1.planets) && !verdict.faulted)
          && (ok ==> currentLevel.State() == AfterKeepers(s1, subscribed, true, nowMs)
                     && currentLevel.loseMessage == old(currentLevel.loseMessage) + verdict.appended
                     && textLabel == (if verdict.victory then WinMessage else currentLevel.loseMessage)
                     && timeCheckCounter == 0)
          && (!ok ==> currentLevel.State() == s1)
    {
      var up := false;
      if timeCheckCounter == 9 {
        up := currentLevel.CheckTimeLimit(nowMs);
      }
      if up {
        ok := TimeUpThenKeepers(subscribed, nowMs);
      } else {
        AdvanceAndRunKeepers(subscribed, nowMs);
        ok := true;
      }
    }

    /** The tenth tick with the time up: judge the level, then run the keepers unless judging threw. */
    method TimeUpThenKeepers(subscribed: nat, nowMs: int) returns (ok: bool)
      requires Valid() && subscribed <= |currentLevel.pending|
      requires timeCheckCounter == 9 && TimeIsUp(nowMs, currentLevel.timeLimit)
      modifies this`timeCheckCounter, this`textLabel,
               this`nextEnabled, this`previousEnabled, this`startText, this`startEnabled,
               currentLevel`suns, currentLevel`planets, currentLevel`powerUps,
               currentLevel`pending, currentLevel`isRunning, currentLevel`isEnded, currentLevel`loseMessage,
               currentLevel.planetCountByType
      ensures Valid()
      ensures var s1 := old(currentLevel.State());
        var verdict := Verdict(currentLevel.goals, s1.planets);
        !currentLevel.isRunning && currentLevel.isEnded && ButtonsShowLevel()
        && (ok <==> AllLiveDeclared(s1.planets) && !verdict.faulted)
        && (ok ==> currentLevel.State() == AfterKeepers(s1, subscribed, true, nowMs)
                   && currentLevel.loseMessage == old(currentLevel.loseMessage) + verdict.appended
                   && textLabel == (if verdict.victory then WinMessage else currentLevel.loseMessage)
                   && timeCheckCounter == 0)
        && (!ok ==> currentLevel.State() == s1)
    {
      ok := TimeOver(nowMs);
      if ok {
        AdvanceAndRunKeepers(subscribed, nowMs);
      }
    }

    /** The counter moves on, then the first `subscribed` keepers handle the timer event. */
    method AdvanceAndRunKeepers(subscribed: nat, nowMs: int)
      requires Valid() && subscribed <= |currentLevel.pending|
      modifies this`timeCheckCounter,
               currentLevel`suns, currentLevel`planets, currentLevel`powerUps, currentLevel`pending
      ensures Valid()
      ensures currentLevel.State() == AfterKeepers(old(currentLevel.State()), subscribed, currentLevel.isEnded, nowMs)
      ensures timeCheckCounter == NextCount(old(timeCheckCounter))
    {
      timeCheckCounter := NextCount(timeCheckCounter);
      currentLevel.RunKeepers(subscribed, nowMs);
    }

    /**
     * The body of the time check once the limit is found passed: the
     * power-ups' `ApplyTimeOver`, the limit checked again, the level ended
     * and judged, and the label set to the verdict.
     */
    method TimeOver(nowMs: int) returns (ok: bool)
      requires Valid() && TimeIsUp(nowMs, currentLevel.timeLimit)
      modifies this`textLabel, this`nextEnabled, this`previousEnabled, this`startText, this`startEnabled,
               currentLevel`isRunning, currentLevel`isEnded, currentLevel`loseMessage, currentLevel.planetCountByType
      ensures Valid()
      ensures !currentLevel.isRunning && currentLevel.isEnded && ButtonsShowLevel()
      ensures var verdict := Verdict(currentLevel.goals, currentLevel.planets);
        (ok <==> AllLiveDeclared(currentLevel.planets) && !verdict.faulted)
        && (ok ==> currentLevel.loseMessage == old(currentLevel.loseMessage) + verdict.appended
                   && textLabel == (if verdict.victory then WinMessage else currentLevel.loseMessage))
    {
      ApplyTimeOverAll();
      var still := currentLevel.CheckTimeLimit(nowMs);
      if !still {
        // every `ApplyTimeOver` is empty, so the early return is never taken
        assert false;
      }
      currentLevel.End();
      UpdateButtons();
      var victory := currentLevel.CheckVictory();
      if victory.None? {
        return false;
      }
      textLabel := if victory.value then WinMessage else currentLevel.loseMessage;
      return true;
    }

    /** `ApplyTimeOver` of every live power-up, in order. */
    method ApplyTimeOverAll()
      ensures currentLevel.State() == old(currentLevel.State())
    {
      for j := 0 to |currentLevel.powerUps|
        invariant currentLevel.State() == old(currentLevel.State())
      {
        var powerUp := currentLevel.powerUps[j];
        if !powerUp.body.isDestroyed {
          ApplyTimeOverHook(currentLevel, powerUp.effect);
        }
      }
    }
  }

  /**
   * `Form1_Load`: the plugins are loaded into the registry, the first level
   * is read and built, the buttons are set and the level is activated; the
   * label shows the level's description.
   */
  method Load(env: Environment, plugins: seq<Assembly>, bar: ScrollBar) returns (r: Result<Form1, Crash>)
    requires InRange(bar)
    ensures (exists i :: 0 <= i < |plugins| && !Loadable(plugins[i])) ==> r == Failure(PluginRejected)
    ensures var loaded := LoadLevel(env.(registry := RegisterAll(BuiltIn(), Instances(plugins))), FirstLevelPath);
      (forall i :: 0 <= i < |plugins| ==> Loadable(plugins[i])) && loaded.Failure? ==> r == Failure(LoadFailed(loaded.error))
    ensures var loaded := LoadLevel(env.(registry := RegisterAll(BuiltIn(), Instances(plugins))), FirstLevelPath);
      r.Success? <==> (forall i :: 0 <= i < |plugins| ==> Loadable(plugins[i])) && loaded.Success?
                      && GravityFits(loaded.value.physics.gravityConst, loaded.value.physics.minGravity, loaded.value.physics.maxGravity)
    ensures r.Success? ==>
      var form := r.value;
      fresh(form) && form.Valid() && form.currentLevel.IsFirstLevel() && form.currentLevel.currentPath == FirstLevelPath
      && form.currentLevel.data == LoadLevel(env.(registry := RegisterAll(BuiltIn(), Instances(plugins))), FirstLevelPath).value
      && form.textLabel == form.currentLevel.description && form.ButtonsShowLevel()
  {
    var loader := new PowerUpPluginLoader();
    var ok := loader.LoadPlugins(plugins);
    if !ok {
      return Failure(PluginRejected);
    }
    var withPlugins := env.(registry := loader.parsers);
    var data := ReadLevelInput(withPlugins, FirstLevelPath);
    if data.Failure? {
      return Failure(LoadFailed(data.error));
    }
    r := ShowFirstLevel(withPlugins, data.value, bar);
  }

  /** The second half of `Form1_Load`: the first level is built, the buttons set and the level activated. */
  method ShowFirstLevel(env: Environment, data: LevelData, bar: ScrollBar) returns (r: Result<Form1, Crash>)
    requires InRange(bar)
    ensures r.Failure? ==> r == Failure(ScrollBarRejected)
    ensures r.Success? <==> GravityFits(data.physics.gravityConst, data.physics.minGravity, data.physics.maxGravity)
    ensures r.Success? ==>
      var form := r.value;
      fresh(form) && form.Valid() && form.currentLevel.IsFirstLevel() && form.currentLevel.currentPath == FirstLevelPath
      && form.currentLevel.data == data
      && form.textLabel == form.currentLevel.description && form.ButtonsShowLevel()
      && form.gravityScrollBar == ActivatedBar(data.physics.gravityConst, data.physics.minGravity, data.physics.maxGravity)
  {
    var level := new Level(null, FirstLevelPath, env, data);
    var form := new Form1(level, bar);
    form.UpdateButtons();
    var ok := form.Activate();
    if !ok {
      return Failure(ScrollBarRejected);
    }
    form.textLabel := level.description;
    return Success(form);
  }
}
