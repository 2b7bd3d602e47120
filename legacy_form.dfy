/**
 * The older game's window (ZapoctakProg2/Form1.cs). It has the same
 * controls as the newer one. Its timer handler has no keepers and no
 * `ApplyTimeOver`. A lost level shows the fixed `EndLevelMessage`.
 * `Level.Activate` sets the gravity scroll bar the same way as in the newer
 * game, so the scroll-bar helpers of `Forms` are reused.
 */
module LegacyForms {
  import opened Wrappers
  import opened LevelInput
  import opened WinConditions
  import opened LegacyPhysics
  import opened LegacyReader
  import opened LegacyLevels
  import Levels
  import Int32
  import Forms

  class Form1 {
    var currentLevel: Level
    /** Every level reachable from the current one through the previous and next links. */
    ghost var levels: set<Level>
    var timeCheckCounter: int
    var textLabel: string
    var startText: string
    var startEnabled: bool
    var nextEnabled: bool
    var previousEnabled: bool
    var gravityScrollBar: Forms.ScrollBar

    ghost predicate Valid()
      reads this, levels`nextLevel
    {
      currentLevel in levels
      && (forall l :: l in levels ==> l.Valid())
      && (forall l :: l in levels && l.previousLevel != null ==> l.previousLevel in levels)
      && (forall l :: l in levels && l.nextLevel != null ==> l.nextLevel in levels && l.nextLevel.previousLevel == l)
      && 0 <= timeCheckCounter < 10
      && Forms.InRange(gravityScrollBar)
    }

    /** The buttons tell what the current level allows. */
    predicate ButtonsShowLevel()
      reads this, currentLevel
    {
      nextEnabled == !currentLevel.IsLastLevel()
      && previousEnabled == !currentLevel.IsFirstLevel()
      && startText == (if currentLevel.isRunning then Forms.PauseLabel else Forms.PlayLabel)
      && startEnabled == !currentLevel.isEnded
    }

    /** The window with its first level, before `Form1_Load` sets it up. */
    constructor (first: Level, bar: Forms.ScrollBar)
      requires first.Valid() && first.previousLevel == null && first.nextLevel == null && Forms.InRange(bar)
      ensures Valid() && currentLevel == first && levels == {first} && gravityScrollBar == bar
      ensures timeCheckCounter == 0 && textLabel == ""
    {
      currentLevel := first;
      levels := {first};
      timeCheckCounter := 0;
      textLabel := "";
      startText := Forms.PlayLabel;
      startEnabled := true;
      nextEnabled := false;
      previousEnabled := false;
      gravityScrollBar := bar;
    }

    /** `UpdateButtons`. */
    method UpdateButtons()
      modifies this`nextEnabled, this`previousEnabled, this`startText, this`startEnabled
      ensures ButtonsShowLevel()
    {
      nextEnabled := !currentLevel.IsLastLevel();
      previousEnabled := !currentLevel.IsFirstLevel();
      startText := if currentLevel.isRunning then Forms.PauseLabel else Forms.PlayLabel;
      startEnabled := !currentLevel.isEnded;
    }

    /**
     * The scroll-bar part of `Level.Activate`: the range becomes the engine's
     * gravity bounds, the position its gravity (at least the minimum) and a
     * notch a twentieth of the range. A position outside the range throws.
     */
    method Activate() returns (ok: bool)
      requires Valid()
      modifies this`gravityScrollBar
      ensures Valid()
      ensures var p := currentLevel.physics;
        ok <==> Forms.ActivatedValue(p.gravityConst, p.minGravity) <= p.maxGravity
      ensures var p := currentLevel.physics;
        ok ==> gravityScrollBar == Forms.ScrollBar(p.minGravity, p.maxGravity, Forms.ActivatedValue(p.gravityConst, p.minGravity),
                                                   Int32.TruncDiv(p.maxGravity - p.minGravity, 20))
      ensures !ok ==> gravityScrollBar == old(gravityScrollBar)
    {
      var p := currentLevel.physics;
      var value := if p.gravityConst > p.minGravity then p.gravityConst else p.minGravity;
      if value > p.maxGravity {
        return false;
      }
      gravityScrollBar := Forms.ScrollBar(p.minGravity, p.maxGravity, value, Int32.TruncDiv(p.maxGravity - p.minGravity, 20));
      return true;
    }

    /** `StartStopButton_Click`: a running level pauses, a paused one runs. */
    method StartStopClick()
      requires Valid()
      modifies currentLevel`isRunning, this`startText
      ensures Valid()
      ensures currentLevel.isRunning == !old(currentLevel.isRunning)
      ensures startText == (if currentLevel.isRunning then Forms.PauseLabel else Forms.PlayLabel)
    {
      if currentLevel.isRunning {
        currentLevel.Stop();
        startText := Forms.PlayLabel;
      } else {
        currentLevel.Start();
        startText := Forms.PauseLabel;
      }
    }

    /** `SwitchLevelTo`: the level becomes current and is activated; the label shows its description. */
    method SwitchLevelTo(level: Level) returns (ok: bool)
      requires Valid() && level in levels
      modifies this`currentLevel, this`gravityScrollBar, this`textLabel,
               this`nextEnabled, this`previousEnabled, this`startText, this`startEnabled
      ensures Valid() && currentLevel == level
      ensures ok ==> textLabel == level.description && ButtonsShowLevel()
      ensures ok <==> Forms.ActivatedValue(level.physics.gravityConst, level.physics.minGravity) <= level.physics.maxGravity
      ensures ok ==> gravityScrollBar == Forms.ActivatedBar(level.physics.gravityConst, level.physics.minGravity, level.physics.maxGravity)
      ensures !ok ==> gravityScrollBar == old(gravityScrollBar)
    {
      currentLevel := level;
      ok := Activate();
      if !ok {
        return;
      }
      textLabel := level.description;
      UpdateButtons();
    }

    /** `PreviousButton_Click`, enabled only when there is a previous level. */
    method PreviousClick() returns (ok: bool)
      requires Valid() && currentLevel.previousLevel != null
      modifies currentLevel`isRunning, this`currentLevel, this`gravityScrollBar, this`textLabel,
               this`nextEnabled, this`previousEnabled, this`startText, this`startEnabled
      ensures Valid() && currentLevel == old(currentLevel.previousLevel) && !old(currentLevel).isRunning
      ensures ok ==> textLabel == currentLevel.description && ButtonsShowLevel()
      ensures var p := currentLevel.physics;
        (ok <==> Forms.GravityFits(p.gravityConst, p.minGravity, p.maxGravity))
        && (ok ==> gravityScrollBar == Forms.ActivatedBar(p.gravityConst, p.minGravity, p.maxGravity))
    {
      currentLevel.Stop();
      ok := SwitchLevelTo(currentLevel.previousLevel);
    }

    /**
     * `NextButton_Click`, enabled only when the level names a next file: the
     * next level is built on first use and reused afterwards.
     */
    method NextClick() returns (r: Option<Forms.Crash>)
      requires Valid() && currentLevel.nextLevelPath.Some?
      modifies currentLevel`isRunning, currentLevel`nextLevel, this`levels, this`currentLevel,
               this`gravityScrollBar, this`textLabel,
               this`nextEnabled, this`previousEnabled, this`startText, this`startEnabled
      ensures Valid() && !old(currentLevel).isRunning
      ensures var loaded := LoadLevel(old(currentLevel).env, old(currentLevel.nextLevelPath).value);
        old(currentLevel.nextLevel) == null && loaded.Failure? ==> r == Some(Forms.LoadFailed(loaded.error)) && currentLevel == old(currentLevel)
      ensures var loaded := LoadLevel(old(currentLevel).env, old(currentLevel.nextLevelPath).value);
        old(currentLevel.nextLevel) == null && loaded.Success? ==>
          fresh(currentLevel) && currentLevel.data == loaded.value && currentLevel.Loaded()
          && currentLevel.currentPath == old(currentLevel.nextLevelPath).value
          && (r.None? <==> Forms.GravityFits(loaded.value.physics.gravityConst, loaded.value.physics.minGravity, loaded.value.physics.maxGravity))
      ensures old(currentLevel.nextLevel) != null ==>
        currentLevel == old(currentLevel.nextLevel)
        && (r.None? <==> Forms.GravityFits(currentLevel.physics.gravityConst, currentLevel.physics.minGravity, currentLevel.physics.maxGravity))
      ensures r.None? ==> currentLevel == old(currentLevel).nextLevel && currentLevel.previousLevel == old(currentLevel)
                          && textLabel == currentLevel.description && ButtonsShowLevel()
                          && gravityScrollBar == Forms.ActivatedBar(currentLevel.physics.gravityConst, currentLevel.physics.minGravity,
                                                                    currentLevel.physics.maxGravity)
    {
      currentLevel.Stop();
      var next := LoadNext();
      if next.Failure? {
        return Some(next.error);
      }
      var ok := SwitchLevelTo(next.value);
      r := if ok then None else Some(Forms.ScrollBarRejected);
    }

    /** The current level's next level, built on first use, joins the window's levels. */
    method LoadNext() returns (r: Result<Level?, Forms.Crash>)
      requires Valid() && currentLevel.nextLevelPath.Some?
      modifies currentLevel`nextLevel, this`levels
      ensures Valid()
      ensures var loaded := LoadLevel(currentLevel.env, currentLevel.nextLevelPath.value);
        old(currentLevel.nextLevel) == null && loaded.Failure? ==> r == Failure(Forms.LoadFailed(loaded.error))
      ensures r.Success? ==> r.value != null && r.value == currentLevel.nextLevel && r.value in levels
                             && r.value.previousLevel == currentLevel
      ensures old(currentLevel.nextLevel) != null ==> r == Success(old(currentLevel.nextLevel))
      ensures var loaded := LoadLevel(currentLevel.env, currentLevel.nextLevelPath.value);
        old(currentLevel.nextLevel) == null ==>
          (r.Success? <==> loaded.Success?)
          && (r.Success? ==> fresh(r.value) && r.value.data == loaded.value && r.value.Loaded()
                             && r.value.currentPath == currentLevel.nextLevelPath.value && r.value.env == currentLevel.env
                             && r.value.nextLevel == null && !r.value.isRunning && !r.value.isEnded)
    {
      var next := currentLevel.NextLevel();
      if next.Failure? {
        return Failure(Forms.LoadFailed(next.error));
      }
      levels := levels + {next.value};
      return Success(next.value);
    }

    /** `RestartButton_Click`: the level starts over, stopped. */
    method RestartClick() returns (ok: bool)
      requires Valid()
      modifies currentLevel`suns, currentLevel`planets, currentLevel`powerUps, currentLevel`scaleFactor,
               currentLevel`timeLimit, currentLevel`goals, currentLevel`nextLevelPath,
               currentLevel`description, currentLevel`isRunning, currentLevel`isEnded,
               currentLevel.physics`gravityConst, currentLevel.planetCountByType,
               this`gravityScrollBar, this`textLabel,
               this`nextEnabled, this`previousEnabled, this`startText, this`startEnabled
      ensures Valid() && currentLevel.Loaded() && !currentLevel.isRunning && !currentLevel.isEnded
      ensures textLabel == currentLevel.description && ButtonsShowLevel()
      ensures var p := currentLevel.data.physics;
        (ok <==> Forms.GravityFits(p.gravityConst, p.minGravity, p.maxGravity))
        && (ok ==> gravityScrollBar == Forms.ActivatedBar(p.gravityConst, p.minGravity, p.maxGravity))
        && (!ok ==> gravityScrollBar == old(gravityScrollBar))
    {
      currentLevel.Reset();
      UpdateButtons();
      textLabel := currentLevel.description;
      ok := Activate();
    }

    /**
     * `GravityScrollBar_Scroll`: the player moved the bar to `value`; the
     * gravity follows. The level's `Gravity` property is the engine's
     * `GravityConst`.
     */
    method GravityScroll(value: int)
      requires Valid() && gravityScrollBar.minimum <= value <= gravityScrollBar.maximum
      modifies this`gravityScrollBar, currentLevel.physics`gravityConst
      ensures Valid() && gravityScrollBar == old(gravityScrollBar).(value := value)
      ensures currentLevel.physics.gravityConst == value
    {
      gravityScrollBar := gravityScrollBar.(value := value);
      currentLevel.physics.SetGravityConst(gravityScrollBar.value);
    }

    /**
     * `Form1_MouseWheel`: the bar moves by the wheel's change, stopping at the
     * ends of its range, and the gravity follows.
     */
    method MouseWheel(delta: int)
      requires Valid()
      modifies this`gravityScrollBar, currentLevel.physics`gravityConst
      ensures Valid()
      ensures var b := old(gravityScrollBar);
        gravityScrollBar == b.(value := Forms.Clamp(b.value + Forms.WheelChange(b.smallChange, delta), b.minimum, b.maximum))
      ensures currentLevel.physics.gravityConst == gravityScrollBar.value
    {
      var change := Int32.TruncDiv(gravityScrollBar.smallChange * delta, 50);
      var b := gravityScrollBar;
      if b.value + change >= b.minimum && b.value + change <= b.maximum {
        gravityScrollBar := b.(value := b.value + change);
      } else if b.value + change < b.minimum {
        gravityScrollBar := b.(value := b.minimum);
      } else if b.value + change > b.maximum {
        gravityScrollBar := b.(value := b.maximum);
      }
      currentLevel.physics.SetGravityConst(gravityScrollBar.value);
    }

    /**
     * `Timer1_Tick` while the level runs: the level's tick, then on every
     * tenth tick the time check; when the time is up the level ends and is
     * judged. `false` stands for `CheckVictory` throwing, which also keeps the
     * counter from advancing.
     */
    method Timer1Tick(elapsedMs: int) returns (ok: bool)
      requires Valid() && currentLevel.isRunning
      modifies this`timeCheckCounter, this`textLabel,
               this`nextEnabled, this`previousEnabled, this`startText, this`startEnabled,
               currentLevel`planets, currentLevel`powerUps, currentLevel`timeLimit,
               currentLevel`isRunning, currentLevel`isEnded, currentLevel.planetCountByType
      ensures Valid()
      ensures currentLevel.State() == LegacyPhysics.Tick(old(currentLevel.State()), currentLevel.physics.maxDistance)
      ensures var timeUp := old(timeCheckCounter) == 9 && Levels.TimeIsUp(elapsedMs, currentLevel.timeLimit);
        !timeUp ==>
          ok && timeCheckCounter == Forms.NextCount(old(timeCheckCounter)) && textLabel == old(textLabel)
          && currentLevel.isRunning && currentLevel.isEnded == old(currentLevel.isEnded)
      ensures var timeUp := old(timeCheckCounter) == 9 && Levels.TimeIsUp(elapsedMs, currentLevel.timeLimit);
        var planets := currentLevel.planets;
        var verdict := AllHold(Levels.Conditions(currentLevel.goals), Levels.Tally(planets), |planets|);
        timeUp ==>
          !currentLevel.isRunning && currentLevel.isEnded && ButtonsShowLevel()
          && (ok <==> Levels.AllLiveDeclared(planets) && verdict.Some?)
          && (ok ==> textLabel == (if verdict.value then Levels.WinMessage else EndLevelMessage)
                     && timeCheckCounter == 0)
    {
      TickLevel();
      ok := CheckTime(elapsedMs);
    }

    /** The level's own tick, which leaves the window and the level links as they were. */
    method TickLevel()
      requires Valid() && currentLevel.isRunning
      modifies currentLevel`planets, currentLevel`powerUps, currentLevel`timeLimit
      ensures Valid() && currentLevel.isRunning
      ensures currentLevel.State() == LegacyPhysics.Tick(old(currentLevel.State()), currentLevel.physics.maxDistance)
    {
      currentLevel.Tick();
    }

    /** The rest of `Timer1_Tick` once the level has ticked: the time check, then the counter. */
    method CheckTime(elapsedMs: int) returns (ok: bool)
      requires Valid() && currentLevel.isRunning
      modifies this`timeCheckCounter, this`textLabel,
               this`nextEnabled, this`previousEnabled, this`startText, this`startEnabled,
               currentLevel`isRunning, currentLevel`isEnded, currentLevel.planetCountByType
      ensures Valid()
      ensures var timeUp := old(timeCheckCounter) == 9 && Levels.TimeIsUp(elapsedMs, currentLevel.timeLimit);
        !timeUp ==>
          ok && timeCheckCounter == Forms.NextCount(old(timeCheckCounter)) && textLabel == old(textLabel)
          && currentLevel.isRunning && currentLevel.isEnded == old(currentLevel.isEnded)
      ensures var timeUp := old(timeCheckCounter) == 9 && Levels.TimeIsUp(elapsedMs, currentLevel.timeLimit);
        var planets := currentLevel.planets;
        var verdict := AllHold(Levels.Conditions(currentLevel.goals), Levels.Tally(planets), |planets|);
        timeUp ==>
          !currentLevel.isRunning && currentLevel.isEnded && ButtonsShowLevel()
          && (ok <==> Levels.AllLiveDeclared(planets) && verdict.Some?)
          && (ok ==> textLabel == (if verdict.value then Levels.WinMessage else EndLevelMessage)
                     && timeCheckCounter == 0)
    {
      if timeCheckCounter == 9 {
        var up := currentLevel.CheckTimeLimit(elapsedMs);
        if up {
          currentLevel.End();
          UpdateButtons();
          var victory := currentLevel.CheckVictory();
          if victory.None? {
            return false;
          }
          textLabel := if victory.value then Levels.WinMessage else EndLevelMessage;
        }
      }
      timeCheckCounter := Forms.NextCount(timeCheckCounter);
      return true;
    }
  }

  /**
   * `Form1_Load`: the parsers are registered, the first level is read and
   * built, the buttons are set and the level is activated; the label shows
   * the level's description.
   */
  method Load(env: Environment, bar: Forms.ScrollBar) returns (r: Result<Form1, Forms.Crash>)
    requires Forms.InRange(bar)
    ensures var loaded := LoadLevel(env.(registry := BuiltIn()), Levels.FirstLevelPath);
      loaded.Failure? ==> r == Failure(Forms.LoadFailed(loaded.error))
    ensures var loaded := LoadLevel(env.(registry := BuiltIn()), Levels.FirstLevelPath);
      r.Success? <==> loaded.Success?
                      && Forms.GravityFits(loaded.value.physics.gravityConst, loaded.value.physics.minGravity, loaded.value.physics.maxGravity)
    ensures r.Success? ==>
      var form := r.value;
      fresh(form) && form.Valid() && form.currentLevel.IsFirstLevel() && form.currentLevel.currentPath == Levels.FirstLevelPath
      && form.currentLevel.data == LoadLevel(env.(registry := BuiltIn()), Levels.FirstLevelPath).value
      && form.textLabel == form.currentLevel.description && form.ButtonsShowLevel()
  {
    var loader := new PowerUpPluginLoader();
    var withParsers := env.(registry := loader.Parsers());
    var data := ReadLevelInput(withParsers, Levels.FirstLevelPath);
    if data.Failure? {
      return Failure(Forms.LoadFailed(data.error));
    }
    r := ShowFirstLevel(withParsers, data.value, bar);
  }

  /** The second half of `Form1_Load`: the first level is built, the buttons set and the level activated. */
  method ShowFirstLevel(env: Environment, data: LevelData, bar: Forms.ScrollBar) returns (r: Result<Form1, Forms.Crash>)
    requires Forms.InRange(bar)
    ensures r.Failure? ==> r == Failure(Forms.ScrollBarRejected)
    ensures r.Success? <==> Forms.GravityFits(data.physics.gravityConst, data.physics.minGravity, data.physics.maxGravity)
    ensures r.Success? ==>
      var form := r.value;
      fresh(form) && form.Valid() && form.currentLevel.IsFirstLevel() && form.currentLevel.currentPath == Levels.FirstLevelPath
      && form.currentLevel.data == data
      && form.textLabel == form.currentLevel.description && form.ButtonsShowLevel()
      && form.gravityScrollBar == Forms.ActivatedBar(data.physics.gravityConst, data.physics.minGravity, data.physics.maxGravity)
  {
    var level := new Level(null, Levels.FirstLevelPath, env, data);
    var form := new Form1(level, bar);
    form.UpdateButtons();
    var ok := form.Activate();
    if !ok {
      return Failure(Forms.ScrollBarRejected);
    }
    form.textLabel := level.description;
    return Success(form);
  }
}
