/** The landing page's launch sequence: entering starts a 3-2-1 countdown,
    and when it reaches zero the simulation is started, at most once per
    page mount. */
module Launch {
  import opened Wrappers
  import opened Simulation

  /** The countdown's first value. */
  const CountdownStart: int := 3

  /** The `countdown` state (`null` until entered) and the `hasLaunched`
      ref; `launches` counts the calls of `startSimulation`. */
  class Launcher {
    var countdown: Option<int>
    var hasLaunched: bool
    ghost var launches: nat

    ghost predicate Valid()
      reads this
    {
      && (countdown.Some? ==> 0 <= countdown.value <= CountdownStart)
      && launches <= 1
      && (hasLaunched <==> launches == 1)
    }

    constructor ()
      ensures Valid()
      ensures countdown == None && !hasLaunched && launches == 0
    {
      countdown, hasLaunched, launches := None, false, 0;
    }

    /** `handleEnterSystem`: (re)starts the countdown, unless the page has
        already launched. */
    method EnterSystem()
      requires Valid()
      modifies this
      ensures Valid()
      ensures old(hasLaunched) ==> countdown == old(countdown)
      ensures !old(hasLaunched) ==> countdown == Some(CountdownStart)
      ensures hasLaunched == old(hasLaunched) && launches == old(launches)
    {
      if hasLaunched {
        return;
      }
      countdown := Some(CountdownStart);
    }

    /** One run of the countdown effect: with a positive count its timer
        fires and lowers the count by one; at zero the page marks itself
        launched and starts the simulation. */
    method Step(engine: Engine) returns (launched: bool)
      requires Valid()
      modifies this, engine
      ensures Valid()
      ensures launched <==> old(countdown) == Some(0) && !old(hasLaunched)
      ensures launched ==> && hasLaunched && launches == 1 && countdown == Some(0)
                           && engine.Valid() && engine.isActive && engine.gameTime == 0
                           && engine.teams == InitialTeams() && engine.bids == []
      ensures !launched ==> hasLaunched == old(hasLaunched) && launches == old(launches)
      ensures !launched ==> unchanged(engine)
      ensures !launched && !old(hasLaunched) && old(countdown).Some? && old(countdown).value > 0 ==>
                countdown == Some(old(countdown).value - 1)
      ensures !launched && (old(hasLaunched) || old(countdown).None?) ==> countdown == old(countdown)
    {
      launched := false;
      if countdown.None? || hasLaunched {
        return;
      }
      if countdown.value > 0 {
        countdown := Some(countdown.value - 1);
      } else {
        hasLaunched := true;
        launches := launches + 1;
        engine.Start();
        launched := true;
      }
    }
  }

  /** From entering, the simulation starts on exactly the fourth step, and
      neither entering again nor stepping again starts it a second time. */
  method LaunchSequence(engine: Engine) returns (page: Launcher)
    modifies engine
    ensures fresh(page) && page.Valid()
    ensures page.launches == 1 && page.hasLaunched
    ensures engine.Valid() && engine.isActive && engine.gameTime == 0
  {
    page := new Launcher();
    page.EnterSystem();
    var launched := page.Step(engine);
    assert !launched && page.countdown == Some(2);
    launched := page.Step(engine);
    assert !launched && page.countdown == Some(1);
    launched := page.Step(engine);
    assert !launched && page.countdown == Some(0);
    launched := page.Step(engine);
    assert launched;
    page.EnterSystem();
    assert page.countdown == Some(0);
    launched := page.Step(engine);
    assert !launched;
  }
}
