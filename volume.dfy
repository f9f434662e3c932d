/** The volume/mute state machine run by the firmware's polling loop.

    One pass of the loop reads three active-low buttons and applies them in a
    fixed order: increase, decrease, mute. Each pressed button updates its own
    variable and then asks the display to show the new value. This module is
    the value-level specification of that pass (`Iterate`) and of a finite
    run of passes (`Run`), with the facts the firmware relies on. */
module Volume {

  /** An unsigned 8-bit value, the C type `uint8_t`. */
  newtype byte = x: int | 0 <= x < 256

  const MaxVolume: byte := 100
  const MinVolume: byte := 0
  const InitialVolume: byte := 50

  /** The two globals the loop mutates: `volumeLevel` and `muteState`. */
  datatype Settings = Settings(volume: byte, mute: byte)

  /** One sampling of the three buttons; `true` means the line reads low (pressed). */
  datatype Sample = Sample(increase: bool, decrease: bool, mute: bool)

  /** A call of a display hook, with the value it was given. */
  datatype Event = VolumeShown(level: byte) | MuteShown(flag: byte)

  /** What one or more passes of the loop leave behind: the new settings
      and the display calls made, in order. */
  datatype Pass = Pass(after: Settings, shown: seq<Event>)

  function Initial(): Settings {
    Settings(InitialVolume, 0)
  }

  /** The documented invariant: the volume lies in MIN..MAX and mute is a 0/1 flag. */
  predicate Valid(s: Settings) {
    MinVolume <= s.volume <= MaxVolume && s.mute <= 1
  }

  function Min(a: int, b: int): int { if a <= b then a else b }
  function Max(a: int, b: int): int { if a <= b then b else a }

  /** The increase button's update: a saturating increment that never wraps. */
  function Raise(v: byte): (r: byte)
    ensures r >= v
    ensures v <= MaxVolume ==> r as int == Min(v as int + 1, MaxVolume as int)
    ensures v >= MaxVolume ==> r == v
  {
    if v < MaxVolume then v + 1 else v
  }

  /** The decrease button's update: a saturating decrement that never wraps. */
  function Lower(v: byte): (r: byte)
    ensures r <= v
    ensures r as int == Max(v as int - 1, MinVolume as int)
  {
    if v > MinVolume then v - 1 else v
  }

  /** The mute button's update, C's logical negation `!m` on a `uint8_t`. */
  function Toggle(m: byte): (r: byte)
    ensures r <= 1
    ensures r == 0 <==> m != 0
  {
    if m == 0 then 1 else 0
  }

  /** One pass of the polling loop. */
  function Iterate(s: Settings, b: Sample): Pass {
    var v1 := if b.increase then Raise(s.volume) else s.volume;
    var e1 := if b.increase then [VolumeShown(v1)] else [];
    var v2 := if b.decrease then Lower(v1) else v1;
    var e2 := if b.decrease then [VolumeShown(v2)] else [];
    var m := if b.mute then Toggle(s.mute) else s.mute;
    var e3 := if b.mute then [MuteShown(m)] else [];
    Pass(Settings(v2, m), e1 + e2 + e3)
  }

  /** A finite run of passes, one per sample, in order. */
  function Run(s: Settings, samples: seq<Sample>): Pass
    decreases |samples|
  {
    if samples == [] then Pass(s, [])
    else
      var first := Iterate(s, samples[0]);
      var rest := Run(first.after, samples[1..]);
      Pass(rest.after, first.shown + rest.shown)
  }

  /** How many buttons a sample has pressed. */
  function Pressed(b: Sample): nat {
    (if b.increase then 1 else 0) + (if b.decrease then 1 else 0) + (if b.mute then 1 else 0)
  }

  function TotalPressed(samples: seq<Sample>): nat {
    if samples == [] then 0 else Pressed(samples[0]) + TotalPressed(samples[1..])
  }

  function MutePresses(samples: seq<Sample>): nat {
    if samples == [] then 0 else (if samples[0].mute then 1 else 0) + MutePresses(samples[1..])
  }

  /** The same samples with the mute button never pressed. */
  function WithoutMute(samples: seq<Sample>): (r: seq<Sample>) {
    if samples == [] then [] else [samples[0].(mute := false)] + WithoutMute(samples[1..])
  }

  /** `n` samples in which only the given button combination is pressed. */
  function Repeat(b: Sample, n: nat): seq<Sample> {
    if n == 0 then [] else [b] + Repeat(b, n - 1)
  }

  const IncreaseOnly := Sample(true, false, false)
  const DecreaseOnly := Sample(false, true, false)
  const MuteOnly := Sample(false, false, true)
  const Idle := Sample(false, false, false)

  // ---------------------------------------------------------------------
  // One pass
  // ---------------------------------------------------------------------

  /** The invariant holds after any pass, whatever the buttons. */
  lemma IterateKeepsValid(s: Settings, b: Sample)
    requires Valid(s)
    ensures Valid(Iterate(s, b).after)
  {
  }

  /** Increase alone: +1 below the maximum, unchanged (no wrap) at it; one display call. */
  lemma IncreasePress(s: Settings)
    ensures s.volume < MaxVolume ==> Iterate(s, IncreaseOnly).after.volume as int == s.volume as int + 1
    ensures s.volume >= MaxVolume ==> Iterate(s, IncreaseOnly).after.volume == s.volume
    ensures Iterate(s, IncreaseOnly).after.mute == s.mute
    ensures Iterate(s, IncreaseOnly).shown == [VolumeShown(Iterate(s, IncreaseOnly).after.volume)]
  {
  }

  /** Decrease alone: -1 above the minimum, unchanged (no wrap) at it; one display call. */
  lemma DecreasePress(s: Settings)
    ensures s.volume > MinVolume ==> Iterate(s, DecreaseOnly).after.volume as int == s.volume as int - 1
    ensures s.volume == MinVolume ==> Iterate(s, DecreaseOnly).after.volume == MinVolume
    ensures Iterate(s, DecreaseOnly).after.mute == s.mute
    ensures Iterate(s, DecreaseOnly).shown == [VolumeShown(Iterate(s, DecreaseOnly).after.volume)]
  {
  }

  /** Mute alone flips the flag, leaves the volume, and shows the new flag. */
  lemma MutePress(s: Settings)
    ensures Iterate(s, MuteOnly).after.mute <= 1
    ensures Iterate(s, MuteOnly).after.mute != s.mute || s.mute > 1
    ensures Iterate(s, MuteOnly).after.volume == s.volume
    ensures Iterate(s, MuteOnly).shown == [MuteShown(Iterate(s, MuteOnly).after.mute)]
  {
  }

  /** Two mute presses restore a 0/1 flag. */
  lemma ToggleTwice(m: byte)
    requires m <= 1
    ensures Toggle(Toggle(m)) == m
  {
  }

  /** A pass with nothing pressed changes nothing and shows nothing. */
  lemma IdlePass(s: Settings)
    ensures Iterate(s, Idle) == Pass(s, [])
  {
  }

  /** Each button touches only its own variable: the volume ignores the mute
      button and the mute flag ignores the volume buttons. */
  lemma IterateSeparates(s: Settings, b: Sample)
    ensures Iterate(s, b).after.volume == Iterate(s, b.(mute := false)).after.volume
    ensures Iterate(s, b).after.mute == Iterate(s, Sample(false, false, b.mute)).after.mute
    ensures !b.mute ==> Iterate(s, b).after.mute == s.mute
    ensures !b.increase && !b.decrease ==> Iterate(s, b).after.volume == s.volume
  {
  }

  /** Both volume buttons in one pass: increase is applied first, so a level
      below the maximum comes back to itself and the maximum ends one lower. */
  lemma BothVolumeButtons(s: Settings, mute: bool)
    ensures Iterate(s, Sample(true, true, mute)).after.volume ==
              if s.volume < MaxVolume then s.volume else s.volume - 1
    ensures Iterate(s, Sample(true, true, mute)).shown[..2] ==
              [VolumeShown(Raise(s.volume)), VolumeShown(Iterate(s, Sample(true, true, mute)).after.volume)]
  {
  }

  /** One display call per pressed button, volume calls before the mute call,
      each carrying the value after its own update. */
  lemma IterateEvents(s: Settings, b: Sample)
    ensures |Iterate(s, b).shown| == Pressed(b)
    ensures forall i, j :: 0 <= i < j < |Iterate(s, b).shown| ==>
              !(Iterate(s, b).shown[i].MuteShown? && Iterate(s, b).shown[j].VolumeShown?)
    ensures b.mute ==> Iterate(s, b).shown[Pressed(b) - 1] == MuteShown(Iterate(s, b).after.mute)
    ensures (b.increase || b.decrease) ==>
              Iterate(s, b).shown[Pressed(b.(mute := false)) - 1] == VolumeShown(Iterate(s, b).after.volume)
    ensures b.increase ==> Iterate(s, b).shown[0] == VolumeShown(Raise(s.volume))
  {
  }

  // ---------------------------------------------------------------------
  // Runs of passes
  // ---------------------------------------------------------------------

  /** Running two stretches of samples one after the other is running their concatenation. */
  lemma {:induction false} RunAppend(s: Settings, xs: seq<Sample>, ys: seq<Sample>)
    ensures Run(s, xs + ys) ==
              Pass(Run(Run(s, xs).after, ys).after, Run(s, xs).shown + Run(Run(s, xs).after, ys).shown)
    decreases |xs|
  {
    if xs == [] {
      assert xs + ys == ys;
    } else {
      var first := Iterate(s, xs[0]);
      assert (xs + ys)[0] == xs[0];
      assert (xs + ys)[1..] == xs[1..] + ys;
      RunAppend(first.after, xs[1..], ys);
      var mid := Run(first.after, xs[1..]);
      var last := Run(mid.after, ys);
      assert Run(s, xs) == Pass(mid.after, first.shown + mid.shown);
      assert Run(s, xs + ys) == Pass(last.after, first.shown + (mid.shown + last.shown));
      assert first.shown + (mid.shown + last.shown) == (first.shown + mid.shown) + last.shown;
    }
  }

  /** The invariant holds after any finite run from a state that satisfies it. */
  lemma {:induction false} RunKeepsValid(s: Settings, samples: seq<Sample>)
    requires Valid(s)
    ensures Valid(Run(s, samples).after)
    decreases |samples|
  {
    if samples != [] {
      IterateKeepsValid(s, samples[0]);
      RunKeepsValid(Iterate(s, samples[0]).after, samples[1..]);
    }
  }

  /** Every state the firmware reaches from power-on has the volume in 0..100
      and the mute flag in 0..1. */
  lemma ReachableValid(samples: seq<Sample>)
    ensures MinVolume <= Run(Initial(), samples).after.volume <= MaxVolume
    ensures Run(Initial(), samples).after.mute <= 1
  {
    RunKeepsValid(Initial(), samples);
  }

  /** Each pressed button in a run produces exactly one display call. */
  lemma {:induction false} RunEventCount(s: Settings, samples: seq<Sample>)
    ensures |Run(s, samples).shown| == TotalPressed(samples)
    decreases |samples|
  {
    if samples != [] {
      IterateEvents(s, samples[0]);
      RunEventCount(Iterate(s, samples[0]).after, samples[1..]);
    }
  }

  /** `n` increase presses from a valid level reach min(level + n, 100) and stay there. */
  lemma {:induction false} RepeatedIncrease(s: Settings, n: nat)
    requires s.volume <= MaxVolume
    ensures Run(s, Repeat(IncreaseOnly, n)).after ==
              Settings(Min(s.volume as int + n, MaxVolume as int) as byte, s.mute)
    decreases n
  {
    if n > 0 {
      RepeatedIncrease(Iterate(s, IncreaseOnly).after, n - 1);
    }
  }

  /** `n` decrease presses reach max(level - n, 0) and never go below 0. */
  lemma {:induction false} RepeatedDecrease(s: Settings, n: nat)
    ensures Run(s, Repeat(DecreaseOnly, n)).after ==
              Settings(Max(s.volume as int - n, MinVolume as int) as byte, s.mute)
    decreases n
  {
    if n > 0 {
      RepeatedDecrease(Iterate(s, DecreaseOnly).after, n - 1);
    }
  }

  /** From the power-on level 50, sixty increase presses clamp at 100 and
      further presses keep it there; from 0 a decrease press keeps 0. */
  lemma ClampScenarios(more: nat)
    ensures Run(Initial(), Repeat(IncreaseOnly, 60)).after.volume == MaxVolume
    ensures Run(Initial(), Repeat(IncreaseOnly, 60 + more)).after.volume == MaxVolume
    ensures Run(Settings(MinVolume, 0), [DecreaseOnly]).after.volume == MinVolume
  {
    RepeatedIncrease(Initial(), 60);
    RepeatedIncrease(Initial(), 60 + more);
  }

  /** After a run, a 0/1 mute flag is back where it started exactly when the
      mute button was pressed an even number of times. */
  lemma {:induction false} MuteParity(s: Settings, samples: seq<Sample>)
    requires s.mute <= 1
    ensures Run(s, samples).after.mute ==
              if MutePresses(samples) % 2 == 0 then s.mute else Toggle(s.mute)
    decreases |samples|
  {
    if samples != [] {
      var next := Iterate(s, samples[0]).after;
      MuteParity(next, samples[1..]);
      if samples[0].mute {
        ToggleTwice(s.mute);
      }
    }
  }

  /** An even number of mute presses, however interleaved with volume presses,
      leaves the mute flag unchanged. */
  lemma EvenMutePresses(s: Settings, samples: seq<Sample>)
    requires s.mute <= 1
    requires MutePresses(samples) % 2 == 0
    ensures Run(s, samples).after.mute == s.mute
  {
    MuteParity(s, samples);
  }

  /** Over a whole run the volume does not depend on the mute button. */
  lemma {:induction false} RunVolumeIgnoresMute(s: Settings, samples: seq<Sample>)
    ensures Run(s, samples).after.volume == Run(s, WithoutMute(samples)).after.volume
    decreases |samples|
  {
    if samples != [] {
      var b := samples[0];
      IterateSeparates(s, b);
      assert WithoutMute(samples)[0] == b.(mute := false);
      assert WithoutMute(samples)[1..] == WithoutMute(samples[1..]);
      var u := Iterate(s, b).after;
      var w := Iterate(s, b.(mute := false)).after;
      RunVolumeIgnoresMute(u, samples[1..]);
      RunVolumeOnlyFromVolume(u, w, WithoutMute(samples[1..]));
    }
  }

  /** On samples without mute presses, the final volume depends only on the starting volume. */
  lemma {:induction false} RunVolumeOnlyFromVolume(s: Settings, t: Settings, samples: seq<Sample>)
    requires s.volume == t.volume
    ensures Run(s, samples).after.volume == Run(t, samples).after.volume
    decreases |samples|
  {
    if samples != [] {
      RunVolumeOnlyFromVolume(Iterate(s, samples[0]).after, Iterate(t, samples[0]).after, samples[1..]);
    }
  }
}
