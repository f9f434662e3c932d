# ATmega8A volume/mute controller — Dafny model

The firmware is a single polling loop on an ATmega8A. It keeps two globals:
`volumeLevel`, a `uint8_t` that starts at 50 and is meant to stay within
`MIN_VOLUME`..`MAX_VOLUME` (0..100), and `muteState`, a 0/1 flag that starts at 0.
On every pass the loop reads three active-low buttons in a fixed order:

- increase: a saturating increment, then `displayVolume`;
- decrease: a saturating decrement, then `displayVolume`;
- mute: `muteState = !muteState`, then `displayMuteState`.

`readADC` selects its input by rewriting the low nibble of the ADMUX register
and keeping the high nibble.

The project has three modules:

- `Volume` (volume.dfy) is the value-level specification. It defines `byte`
  (`uint8_t`), `Settings` (the two globals), `Sample` (one reading of the three
  buttons), `Event` (one display call) and `Pass` (the new settings plus the
  display calls). `Iterate` is one pass of the loop and `Run` is a finite
  sequence of passes. The rest of the module is lemmas about them.
- `Firmware` (controller.dfy) holds the class `Controller`. Its fields
  `volumeLevel` and `muteState` are updated in place, and its ghost `trace`
  records display calls. `Step` is one loop iteration and is written
  imperatively, the way the C code is. `Poll` runs a finite sequence of
  iterations. Both are proved equal to `Iterate`/`Run`.
- `Adc` (adc.dfy) holds `SelectChannel`, the ADMUX bit-field update.

`muteState = !muteState` is C's logical negation on a `uint8_t`: 0 becomes 1,
and any non-zero value becomes 0. So the toggle always yields 0 or 1, and two
toggles restore a flag that was already 0 or 1. Volumes and flags are full
`uint8_t` values (0..255). This makes the bound on the volume a theorem about
the states reachable from power-on rather than a type constraint.

## Model

| member | source | states |
|---|---|---|
| Volume.Raise | ATmega8A.c:37-39 | the increase update never lowers the level; from a level up to 100 it yields min(level+1, 100); at 100 or above it leaves the level unchanged (no wrap) |
| Volume.Lower | ATmega8A.c:46-48 | the decrease update never raises the level and yields max(level-1, 0), so 0 stays 0 (no wrap) |
| Volume.Toggle | ATmega8A.c:55 | `!m` on a byte is always 0 or 1, and is 0 exactly when m is non-zero |
| Volume.IterateKeepsValid | ATmega8A.c:35-58 | one pass, with any combination of buttons pressed, keeps the volume in 0..100 and mute in 0..1 |
| Volume.IncreasePress | ATmega8A.c:35-42 | increase alone: +1 below 100, unchanged at 100, mute untouched, exactly one volume display call with the new level |
| Volume.DecreasePress | ATmega8A.c:44-51 | decrease alone: -1 above 0, unchanged at 0, mute untouched, exactly one volume display call with the new level |
| Volume.MutePress | ATmega8A.c:53-58 | mute alone: the flag becomes 0/1 and differs from a 0/1 flag it started from, the volume is untouched, exactly one mute display call with the new flag |
| Volume.ToggleTwice | ATmega8A.c:55 | two toggles restore a 0/1 mute flag |
| Volume.IdlePass | ATmega8A.c:35-58 | a pass with no button pressed changes nothing and makes no display call |
| Volume.IterateSeparates | ATmega8A.c:35-58 | the final volume does not depend on the mute button, and the final mute flag does not depend on the volume buttons |
| Volume.BothVolumeButtons | ATmega8A.c:35-51 | with both volume buttons pressed, increase is applied first: a level below 100 comes back to itself and 100 ends at 99; the two display calls show the raised and then the final level |
| Volume.IterateEvents | ATmega8A.c:40-56 | one display call per pressed button; no volume call comes after the mute call; the mute call shows the final flag; the last volume call shows the final level |
| Volume.RunAppend | ATmega8A.c:33-61 | running two stretches of loop passes in turn is the same as running their concatenation, settings and display calls alike |
| Volume.RunKeepsValid | ATmega8A.c:33-61 | from a state with the volume in 0..100 and mute in 0..1, every finite run of passes stays there |
| Volume.ReachableValid | ATmega8A.c:22-61 | every state reached from power-on (volume 50, not muted) has the volume in 0..100 and mute in 0..1 |
| Volume.RunEventCount | ATmega8A.c:33-61 | over a run, the number of display calls equals the number of button presses |
| Volume.RepeatedIncrease | ATmega8A.c:35-42 | n increase presses from a level up to 100 give min(level+n, 100), with mute unchanged |
| Volume.RepeatedDecrease | ATmega8A.c:44-51 | n decrease presses give max(level-n, 0), with mute unchanged |
| Volume.ClampScenarios | ATmega8A.c:22-51 | from power-on, 60 increase presses reach 100 and any further presses keep 100; a decrease press at 0 keeps 0 |
| Volume.MuteParity | ATmega8A.c:53-58 | after any run, a 0/1 mute flag is toggled exactly when the mute button was pressed an odd number of times |
| Volume.EvenMutePresses | ATmega8A.c:53-58 | an even number of mute presses, interleaved with any volume presses, restores the mute flag |
| Volume.RunVolumeIgnoresMute | ATmega8A.c:35-58 | over a whole run, the final volume is the same as with every mute press removed |
| Volume.RunVolumeOnlyFromVolume | ATmega8A.c:35-51 | over a run, the final volume depends only on the starting volume and not on the mute flag |
| Firmware.Controller.constructor | ATmega8A.c:22-23 | power-on state: volume 50, not muted, nothing displayed |
| Firmware.Controller.Step | ATmega8A.c:35-58 | one in-place loop iteration leaves the fields and the appended display calls exactly as `Iterate` prescribes, and it keeps the range invariant |
| Firmware.Controller.Poll | ATmega8A.c:33-61 | a finite stretch of the loop leaves the fields and trace exactly as `Run` prescribes, and it keeps the range invariant |
| Adc.SelectChannel | ATmega8A.c:77 | the new ADMUX keeps the old upper nibble (value / 16) and its lower nibble is the channel mod 16 |
| Adc.SelectIdempotent | ATmega8A.c:77 | selecting the same channel twice gives the same register as selecting it once |
| Adc.SelectLastWins | ATmega8A.c:77 | of two selections in a row, only the second channel is kept |
| Adc.SelectIgnoresHighChannelBits | ATmega8A.c:77 | channel numbers that differ only above bit 3 select the same input |

## Left out

- Pin and pull-up setup through `DDRD` and `PORTD` (ATmega8A.c:27-28) is hardware configuration. The model takes the three button reads as booleans (pressed = line low). It does not model the `bit_is_clear(PIND, …)` bit extraction.
- `initADC` (ATmega8A.c:67-72) only sets prescaler and enable bits in a device register.
- In `readADC`, starting the conversion, the busy-wait on `ADSC` and the returned `ADC` value (ATmega8A.c:79-83) depend on the device. The wait also has no termination guarantee. Only the channel-select expression on line 77 is modelled.
- `_delay_ms(200)` debouncing (ATmega8A.c:41, 50, 57) is timing only. It has no effect on the state.
- The display hooks `displayVolume` / `displayMuteState` (ATmega8A.c:87-94) are empty stubs. They appear only as events in a ghost trace.
- The endless `while (1)` (ATmega8A.c:33) is modelled as one iteration (`Step`) and as any finite sequence of iterations (`Poll`, `Run`). Non-termination is not modelled.
- `volatile` and `avr/interrupt.h` are left out. No interrupts are enabled, so there is no concurrency to model.
