# Chess clock state machine

A model, in Dafny, of the timer logic of a two-player chess clock for a
Raspberry Pi Pico board (`Relogio_xadrez/relogio.c`). Each player has ten
minutes. One clock runs at a time. Three active-low buttons drive the clock:

- A player's own button ends that player's turn and starts the opponent's clock.
- The joystick button pauses a running match, and resets a paused one.
- When a timer reaches zero, the clock announces the losing side and restarts the match, paused.

The model has three modules:

- `Display` (display.dfy): the pure arithmetic of the live readout. This is
  the C-style `t / 60`, `t % 60` split, and the eight characters that
  `"A: %02d:%02d"` writes into the 10-byte buffer.
- `ClockSpec` (clock_spec.dfy): the five globals (`timerA`, `timerB`,
  `timerA_correndo`, `timerB_correndo`, `pausado`) and the RGB LED as one
  value, `ClockState`. Each step of the main loop is a function on that value:
  `Ticked`, `Sample` then `ApplyEvent`, `Expire`, one whole iteration `Step`,
  and many iterations `Run`. The properties of the clock are proved about
  these functions.
- `Clock` (chess_clock.dfy): the class `ChessClock`. Its fields are the
  globals. Its methods update them in place as the C routines do:
  - `Tick` for `dimunui_tempo`;
  - `HandleButtons` for `verifica_botoes`, keeping the literal else-if chain and the debounce re-tests;
  - `EndOfTime` for `rotina_fim_de_tempo`;
  - `Cycle` for one pass of `main`'s loop;
  - `MainLoop` for the loop itself.

  Each method is proved to leave the fields equal to the matching `ClockSpec`
  function applied to the old fields.

Central facts:

- The state always has one of two shapes. Either it is paused with both clocks
  stopped, or it is running with exactly one clock running.
- At the top of every loop iteration both timers are in [1, 600].
- The tick never takes a timer below zero. The decrement has no floor, so this
  holds only because the loop runs its steps in order: a zero left by the tick
  is reset by the expiry routine in the same iteration.

## Model

| member | source | states |
|---|---|---|
| `Display.Split` | Relogio_xadrez/relogio.c:147-148 | minutes and seconds by C's truncating `/` and `%`: `m*60 + s == t`, seconds strictly between -60 and 60, both fields take the sign of `t` |
| `Display.SplitUnique` | Relogio_xadrez/relogio.c:147-148 | for `t >= 0` the split is the only pair with `0 <= s < 60` that recombines to `t` |
| `Display.SplitOfTimer` | Relogio_xadrez/relogio.c:144-148 | for a timer value in [0, 600] the minutes are at most 10 and the seconds are in [0, 60) |
| `Display.TwoDigits` | Relogio_xadrez/relogio.c:147-148 | `%02d` of a value below 100 is exactly two decimal digits whose value is that number |
| `Display.Readout` | Relogio_xadrez/relogio.c:144-148 | the readout line has 8 characters (9 with its NUL, within the 10-byte buffer), the shape `X: dd:dd`, a minutes field whose value is `Split(t).0` and a seconds field whose value is `Split(t).1` (below 60), and reads back as `t` |
| `Display.ReadoutInjective` | Relogio_xadrez/relogio.c:147-148 | two readouts with the same tag are equal iff they show the same time |
| `ClockSpec.Ticked` | Relogio_xadrez/relogio.c:119-126 | each running timer drops by exactly 1 and a stopped one is kept. The flags, the pause and the LED are unchanged. With both stopped the tick is the identity. It keeps the state's shape, changes at most one timer of a well-formed state, and maps [1,600] into [0,600] |
| `ClockSpec.Sample` | Relogio_xadrez/relogio.c:156-200 | the press acted on, with priority A > B > joystick: A iff A is low; B iff A high and B low; joystick iff A and B high and joystick low; none iff all high |
| `ClockSpec.ApplyEvent` | Relogio_xadrez/relogio.c:156-200 | A press: unpaused, B running, A stopped, LED blue, timers kept. B press: the mirror with LED green. Joystick while running: paused, both stopped, LED off, timers kept. Joystick while paused: both timers 600, paused, both stopped, LED kept. No press: no change. Any press gives a well-formed state, and the bounds are kept |
| `ClockSpec.Expire` | Relogio_xadrez/relogio.c:202-296 | with no timer at 0 nothing changes and nothing is announced. Otherwise the match restarts: both timers 600, paused, both stopped, red LED off. A is announced iff `timerA == 0` and B iff `timerB == 0`, A first. The result starts a cycle in [1,600] |
| `ClockSpec.Step` | Relogio_xadrez/relogio.c:311-325 | one loop iteration (tick, buttons, expiry) keeps both timers in [1,600] and keeps the state's shape. From a well-formed state with both timers in [1,600], it announces at most one loser, and it announces a side exactly when the tick of that iteration brought its timer to 0 |
| `ClockSpec.Run` | Relogio_xadrez/relogio.c:311-325 | any number of iterations keep the bounds and the shape. From a well-formed state with both timers in [1,600], they announce no more losers than there are iterations |
| `ClockSpec.RunFromInitial` | Relogio_xadrez/relogio.c:32-36 | after any run from the initial globals: at most one clock runs, paused implies both stopped, both timers are in [1,600], and after the next tick in [0,600] |
| `ClockSpec.TimeoutScenario` | Relogio_xadrez/relogio.c:202-296 | with A running on 1 second and B on 50, the tick leaves A at 0, and the iteration announces only A and restarts the match |
| `ClockSpec.PauseThenReset` | Relogio_xadrez/relogio.c:179-199 | two joystick presses on a running match pause it with the times kept, then reset it to the initial state |
| `Clock.ChessClock.constructor` | Relogio_xadrez/relogio.c:32-36 | the fields start as the globals' initial values with the LED dark, which is a well-formed state |
| `Clock.ChessClock.Tick` | Relogio_xadrez/relogio.c:119-126 | the new fields are `Ticked` of the old ones, and the shape is kept |
| `Clock.ChessClock.HandleButtons` | Relogio_xadrez/relogio.c:156-200 | the else-if chain with its debounce re-tests equals `ApplyEvent` of `Sample` of the three levels, and the shape is kept |
| `Clock.ChessClock.EndOfTime` | Relogio_xadrez/relogio.c:202-296 | the new fields and the announced losers are exactly `Expire` of the old fields |
| `Clock.ChessClock.Cycle` | Relogio_xadrez/relogio.c:311-325 | the fields move as `Step` says. The two lines drawn are the readouts of the ticked timers. Both timers stay in [1,600], and a well-formed clock (its timers are in [1,600] by the precondition) announces at most one loser |
| `Clock.ChessClock.MainLoop` | Relogio_xadrez/relogio.c:311-325 | after the loop the fields and the announcements are exactly `Run` of the starting state. The bounds hold throughout, and a well-formed clock announces no more losers than there are iterations |

Two facts about the code shape the model:

- The decrement in the tick has no floor at zero (`relogio.c:121`, `:124`),
  and neither has `Ticked`. Non-negativity is proved per loop iteration
  instead.
- Each debounce re-test reads the same parameter value again
  (`relogio.c:159`, `:170`, `:181`, `:192`), so it can never fail.
  `HandleButtons` keeps the re-tests, and its postcondition shows that they
  change nothing.

## Left out

- Hardware bring-up is not modelled: I2C, GPIO directions and pull-ups, the PWM set-up of the buzzer, LED pin set-up (`relogio.c:38-82`). These are peripheral configuration done through SDK calls.
- Display rendering is not modelled: the SSD1306 driver calls, the boot banner text and the "O TEMPO ACABOU!" banners. Only the readout text is modelled, as the strings `Cycle` returns. A loss announcement is modelled only as the side it names.
- Waits are not modelled: every `sleep_ms`, meaning the 10 ms debounce delay, the 1 s buzzer, the 5 s banners, the 3 s boot banner and the 1 s loop period. They carry no logic.
- The buzzer is not modelled. It sounds exactly when `Expire` announces a loser.
- The lighting of the LED is modelled only as the `led` field's final value in each routine. The red LED that is lit during an announcement and during the 3 s boot banner (`relogio.c:307-309`) is switched off again before the routine ends, so it never shows in the model's state.
- `volatile` and `hardware/irq.h` are not modelled. No interrupt handler exists, so every update is sequential.
- 32-bit wrap-around of `int` is not modelled. The timers are proved to stay in [0, 600], so it cannot occur.
- `main`'s loop never ends. `MainLoop` models its first `|inputs|` iterations, one per sample of the three button levels.
- Display.Readout: requires `0 <= t < 6000`. These are the values whose minutes fit `%02d`'s two digits. The clock only shows timers in [0, 600], so `Cycle` always meets the requirement.
