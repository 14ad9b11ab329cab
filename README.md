# librem-control: battery charge-threshold coupling

librem-control is a small GTK control panel for Librem laptops. Its only logic couples two
sliders: the battery charge START threshold and the charge END threshold. Both sliders run from
0 to 100 in steps of 1. They start at 40 and 90. Each has a `value-changed` handler:

- `bat_start_val_chg` forces the start value into [10, 99]. If start + 1 then exceeds the end
  value, which it read before doing anything else, it sets the end slider to start + 1.
- `bat_end_val_chg` sets the start slider to end - 1 when end - 1 is below the start value.

The handlers write through the toolkit's set-value call. That call clamps the value to the
slider's range and emits `value-changed` only when the stored value changes. The emission does
not recurse on the same slider. A set on a slider whose emission is still running only stores
the value, and the emission restarts once the running handler has returned. A set on the other
slider runs that slider's handler at once. So one user edit can cascade through both handlers,
and the start handler runs a second time after it has clamped its own value.

`librem_control.dfy` (module `LibremControl`) models this.

- Class `Sliders` holds the two slider values, plus the toolkit's record of which emission is
  running and which has a restart pending.
  - `SetStartValue` and `SetEndValue` model the set-value call. They clamp and store the value.
    During that slider's own emission they only request a restart. Otherwise they emit.
  - `EmitStartChanged` and `EmitEndChanged` model the emission. The handler runs, and runs
    again while a restart is pending.
  - `OnStartChanged` and `OnEndChanged` are the two handlers, statement by statement.
  - These methods call each other recursively. Each one is proved to end in the state given by
    a closed-form function.
- The functions `AfterStartChanged`, `AfterSetStart`, `AfterEndChanged` and `AfterSetEnd` state
  the coupling's promises in their contracts.
- `Run` applies a sequence of user edits. The lemmas show that the coupling invariant
  `10 <= start < end <= 100` holds from start-up through any sequence of edits.

Three toolkit behaviours are modelling assumptions here, not verified library behaviour:

- The set-value call clamps to the declared range [0, 100].
- It emits `value-changed` only when the stored value actually changes.
- A same-slider emission restarts rather than nests.

A user dragging a slider goes through the same set-value path.

The source has no apply/undo staging, no immediate charge start/stop, no CPU power limits, no
LED or keyboard backlight control and no privilege check. It reads or writes no file. The sliders
start at 40 and 90.

Because a set to the value a slider already holds emits nothing, no handler runs in that case.
In an uncoupled state that can matter, for example setting start to 99 while end is at most 99.
None of those states can be reached from start-up (`ReachableCoupled`).

## Model

| member | source | states |
|---|---|---|
| LibremControl.Clamp | librem-control.c:57-64 | the result lies in [lo, hi]. Values below lo become lo, values above hi become hi, and values inside are kept |
| LibremControl.Initial | librem-control.c:129-142 | the sliders start at 40 and 90, which lie in the slider range and satisfy the coupling invariant |
| LibremControl.AfterStartChanged | librem-control.c:49-69 | the start handler leaves start in [10, 99]: below 10 becomes 10, above 99 becomes 99, in range is unchanged. end ends above start. end is only ever raised, and then to exactly start + 1. end is unchanged when start + 1 <= end |
| LibremControl.AfterSetStart | librem-control.c:49-69 | setting the start slider to its current value changes nothing. Any other value v leaves start at v forced into [10, 99], below end. end only rises, to start + 1. The coupling invariant is preserved |
| LibremControl.AfterEndChanged | librem-control.c:71-83 | the end handler changes nothing when end - 1 >= start. Otherwise, for a start above 0, start becomes max(end - 1, 10) and the pair ends coupled. A start of at least 10 is never raised. end moves only when the start handler lifts it to 11 |
| LibremControl.AfterSetEnd | librem-control.c:71-83 | a new end above start is stored as is. A new end at or below a coupled start pushes start down to max(end - 1, 10) and end up to at least 11. The coupling invariant is preserved |
| LibremControl.AfterEndChangedStartBusy | librem-control.c:76-82 | run while the start slider's emission is in progress, the end handler never changes end. It changes nothing when end - 1 >= start, and otherwise lowers start to max(end - 1, 0) |
| LibremControl.HandlersSettle | librem-control.c:49-83 | running either handler again on the state it produced changes nothing, so a restarted emission is harmless |
| LibremControl.Sliders.constructor | librem-control.c:129-142 | the sliders are given 40 and 90 before their handlers are connected, so no handler runs and no emission is in progress |
| LibremControl.Sliders.SetStartValue | librem-control.c:59 | the set-value call on the start slider clamps to [0, 100]. During the start slider's own emission it only stores the value and requests a restart exactly when the value changed. Otherwise it ends in `AfterSetStart` of the old values |
| LibremControl.Sliders.SetEndValue | librem-control.c:67 | the set-value call on the end slider clamps to [0, 100]. During the end slider's own emission it only stores the value and requests a restart. When idle it ends in `AfterSetEnd` of the old values |
| LibremControl.Sliders.EmitStartChanged | librem-control.c:132 | the emission of `value-changed` on the start slider runs the start handler until no restart is pending and ends in `AfterStartChanged` of the old values |
| LibremControl.Sliders.EmitEndChanged | librem-control.c:142 | the emission of `value-changed` on the end slider runs the end handler until no restart is pending and ends in `AfterEndChanged` of the old values, or in `AfterEndChangedStartBusy` during a start emission |
| LibremControl.Sliders.OnStartChanged | librem-control.c:49-69 | the start handler, run within its emission, ends in `AfterStartChanged` of the old values. It requests its own restart exactly when it clamped start |
| LibremControl.Sliders.OnEndChanged | librem-control.c:71-83 | the end handler, run within its emission, ends in `AfterEndChanged` of the old values, or in `AfterEndChangedStartBusy` during a start emission |
| LibremControl.StartClampOrder | librem-control.c:54-67 | when the start handler clamps, the set at 59/63 only stores the clamped value, so the end value read at 54 is still current at 66. The set at 67 raises end to start + 1, and the restarted run changes nothing |
| LibremControl.Examples | librem-control.c:49-83 | from start-up, dragging end to 5 gives start 10 and end 11. (90,100) with start set to 99 gives (99,100). (50,60) with end set to 40 gives (39,40). Dragging start to 0 or to 100 from start-up gives (10,90) and (99,100) |
| LibremControl.AfterEdit | librem-control.c:49-83 | one user edit of either slider keeps both values in range and preserves the coupling invariant |
| LibremControl.Run | librem-control.c:160 | the user's edits, applied in order by the main loop, keep both sliders in their range |
| LibremControl.RunKeepsCoupled | librem-control.c:49-83 | any sequence of user edits from a coupled state ends in a coupled state |
| LibremControl.ReachableCoupled | librem-control.c:129-142 | every state the user can reach from start-up satisfies 10 <= start < end <= 100 |

## Left out

- The window, grid, labels, icons and separator are not modelled (librem-control.c:92-144). They are user interface only.
- The application lifecycle is not modelled: `close_window`, `gtest_app_activate` and `main`. These are toolkit plumbing.
- `print_me` only prints the process user ids. It is I/O with no logic.
- The sysfs path macros are defined but never used. No file is read or written.
- Slider values are `double` in the source. The model uses integers because the step is 1, so fractional values are not covered.
- The toolkit's clamping to the slider range, its emit-only-on-change rule and its restart of a same-slider emission are assumed, not verified.
- The toolkit restarts an emission with every handler connected to the slider. Here the restart re-runs only the coupling handler, because no other handler in the source reacts to these sliders.
- LibremControl.Sliders.OnEndChanged: the contract states the combined effect with the cascade. It does not state separately that the handler's own body never writes the end slider, though no statement in its body does.
