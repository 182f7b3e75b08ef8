/**
 * The firmware's clock as it runs: the five globals and the LED pins as the
 * fields of one object, each routine of the main loop as a method that
 * updates them in place, and the loop itself. Every method is proved to move
 * the state exactly as the matching function of ClockSpec says.
 */
module Clock {
  import opened ClockSpec
  import Display

  class ChessClock {
    var timerA: int
    var timerB: int
    var runningA: bool
    var runningB: bool
    var paused: bool
    var led: Led

    /** The fields as a value. */
    function State(): ClockState
      reads this
    {
      ClockState(timerA, timerB, runningA, runningB, paused, led)
    }

    ghost predicate Valid()
      reads this
    {
      WellFormed(State())
    }

    /** The globals' initial values, with the LEDs dark as they are when the
        main loop is entered. */
    constructor ()
      ensures State() == Initial && Valid()
    {
      timerA := TotalTime;
      timerB := TotalTime;
      runningA := false;
      runningB := false;
      paused := true;
      led := LedOff;
    }

    /** One elapsed second. */
    method Tick()
      modifies this
      ensures State() == Ticked(old(State()))
      ensures old(Valid()) ==> Valid()
    {
      if runningA {
        timerA := timerA - 1;
      }
      if runningB {
        timerB := timerB - 1;
      }
    }

    /** Acts on the button levels read this cycle (false means pressed). The
        first pressed button in the order A, B, joystick wins; each branch
        re-tests its level after the debounce delay. */
    method HandleButtons(aLevel: bool, bLevel: bool, joystickLevel: bool)
      modifies this
      ensures State() == ApplyEvent(old(State()), Sample(Levels(aLevel, bLevel, joystickLevel)))
      ensures old(Valid()) ==> Valid()
    {
      if !aLevel {
        if !aLevel {
          paused := false;
          runningA := false;
          runningB := true;
          led := Led(false, false, true);
        }
      } else if !bLevel {
        if !bLevel {
          paused := false;
          runningA := true;
          runningB := false;
          led := Led(false, true, false);
        }
      } else if !joystickLevel && !paused {
        if !joystickLevel {
          paused := true;
          runningA := false;
          runningB := false;
          led := Led(false, false, false);
        }
      } else if !joystickLevel && paused {
        if !joystickLevel && paused {
          timerA := TotalTime;
          timerB := TotalTime;
          paused := true;
          runningA := false;
          runningB := false;
        }
      }
    }

    /** The end-of-time routine; returns the sides it announced as losers,
        in the order it announced them. */
    method EndOfTime() returns (losers: seq<Side>)
      modifies this
      ensures Resolution(State(), losers) == Expire(old(State()))
      ensures old(Valid()) ==> Valid()
    {
      losers := [];
      if timerA == 0 || timerB == 0 {
        led := LedRed;
        if timerA == 0 {
          losers := losers + [A];
        }
        if timerB == 0 {
          losers := losers + [B];
        }
        timerA := TotalTime;
        timerB := TotalTime;
        paused := true;
        runningA := false;
        runningB := false;
        led := led.(red := false);
      }
    }

    /** One iteration of the main loop: tick, draw the two readouts (returned
        as the lines shown), act on the buttons, resolve an expired timer. */
    method Cycle(levels: Levels) returns (lineA: string, lineB: string, losers: seq<Side>)
      requires AtCycleStart(State())
      modifies this
      ensures Resolution(State(), losers) == Step(old(State()), levels)
      ensures lineA == Display.Readout('A', Ticked(old(State())).timerA)
      ensures lineB == Display.Readout('B', Ticked(old(State())).timerB)
      ensures AtCycleStart(State())
      ensures old(Valid()) ==> Valid() && |losers| <= 1
    {
      Tick();
      lineA := Display.Readout('A', timerA);
      lineB := Display.Readout('B', timerB);
      HandleButtons(levels.a, levels.b, levels.joystick);
      losers := EndOfTime();
    }

    /** The main loop, run for one cycle per entry of `inputs`; returns every
        announcement made, in order. */
    method MainLoop(inputs: seq<Levels>) returns (announced: seq<Side>)
      requires AtCycleStart(State())
      modifies this
      ensures Resolution(State(), announced) == Run(old(State()), inputs)
      ensures AtCycleStart(State())
      ensures old(Valid()) ==> Valid() && |announced| <= |inputs|
    {
      ghost var start := State();
      announced := [];
      var i := 0;
      while i < |inputs|
        invariant 0 <= i <= |inputs|
        invariant AtCycleStart(State())
        invariant old(Valid()) ==> Valid() && |announced| <= i
        invariant Resolution(State(), announced) == Run(start, inputs[..i])
      {
        var lineA, lineB, losers := Cycle(inputs[i]);
        assert inputs[..i + 1][..i] == inputs[..i];
        announced := announced + losers;
        i := i + 1;
      }
      assert inputs[..i] == inputs;
    }
  }
}
