/** The firmware's two globals and its polling loop, as an object whose
    methods update the globals in place. Display calls are recorded in a
    ghost trace, since the display hooks themselves do nothing. */
module Firmware {
  import opened Volume

  class Controller {
    var volumeLevel: byte
    var muteState: byte
    /** The display calls made so far, oldest first. */
    ghost var trace: seq<Event>

    function Current(): Settings
      reads this
    {
      Settings(volumeLevel, muteState)
    }

    /** Power-on: volume 50, not muted, nothing shown yet. */
    constructor ()
      ensures Current() == Initial() && Valid(Current())
      ensures trace == []
    {
      volumeLevel := InitialVolume;
      muteState := 0;
      trace := [];
    }

    /** One pass of the polling loop with the three button reads given
        (`true` = the line reads low). */
    method Step(incPressed: bool, decPressed: bool, mutePressed: bool)
      modifies this
      ensures Current() == Iterate(old(Current()), Sample(incPressed, decPressed, mutePressed)).after
      ensures trace == old(trace) + Iterate(old(Current()), Sample(incPressed, decPressed, mutePressed)).shown
      ensures old(Valid(Current())) ==> Valid(Current())
    {
      ghost var s0 := Current();
      if incPressed {
        if volumeLevel < MaxVolume {
          volumeLevel := volumeLevel + 1;
        }
        trace := trace + [VolumeShown(volumeLevel)];
      }
      if decPressed {
        if volumeLevel > MinVolume {
          volumeLevel := volumeLevel - 1;
        }
        trace := trace + [VolumeShown(volumeLevel)];
      }
      if mutePressed {
        muteState := if muteState == 0 then 1 else 0;
        trace := trace + [MuteShown(muteState)];
      }
      if Valid(s0) {
        IterateKeepsValid(s0, Sample(incPressed, decPressed, mutePressed));
      }
    }

    /** A finite stretch of the endless loop: one pass per sample, in order. */
    method Poll(samples: seq<Sample>)
      modifies this
      ensures Current() == Run(old(Current()), samples).after
      ensures trace == old(trace) + Run(old(Current()), samples).shown
      ensures old(Valid(Current())) ==> Valid(Current())
    {
      ghost var start := Current();
      ghost var before := trace;
      var i := 0;
      while i < |samples|
        invariant 0 <= i <= |samples|
        invariant Current() == Run(start, samples[..i]).after
        invariant trace == before + Run(start, samples[..i]).shown
      {
        ghost var done := Run(start, samples[..i]);
        Step(samples[i].increase, samples[i].decrease, samples[i].mute);
        assert samples[i] == Sample(samples[i].increase, samples[i].decrease, samples[i].mute);
        RunAppend(start, samples[..i], [samples[i]]);
        assert samples[..i + 1] == samples[..i] + [samples[i]];
        i := i + 1;
      }
      assert samples[..i] == samples;
      if Valid(start) {
        RunKeepsValid(start, samples);
      }
    }
  }
}
