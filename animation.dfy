/**
 * The animation data of the sprite-system sketch in src/main_old.c: atlas
 * regions, frames with durations, named sequences, and the controller that
 * records which sequence and frame is showing. The frame-advance rule of
 * updateAnimation is specified here as a function; the method that runs it
 * sits with the sprites in module Playback.
 */
module Animation {

  /** A rectangle of the texture atlas, in UV space. */
  datatype AtlasRegion = AtlasRegion(u: real, v: real, width: real, height: real)

  datatype AnimationFrame = AnimationFrame(region: AtlasRegion, duration: real)

  /** A named list of frames; `capacity` is the size of the frame buffer allocated for it. */
  datatype AnimationSequence = AnimationSequence(
    name: string, frames: seq<AnimationFrame>, capacity: nat, looping: bool)

  /** createAnimationSequence: an empty sequence with room for `frameCapacity` frames. */
  function CreateAnimationSequence(name: string, frameCapacity: nat, looping: bool): (s: AnimationSequence)
    ensures s.name == name && s.frames == [] && s.capacity == frameCapacity && s.looping == looping
  {
    AnimationSequence(name, [], frameCapacity, looping)
  }

  /**
   * addFrameToSequence: the frame goes at index frameCount. The buffer is
   * not grown, so the caller must leave room for it.
   */
  function AddFrameToSequence(s: AnimationSequence, region: AtlasRegion, duration: real): (r: AnimationSequence)
    requires |s.frames| < s.capacity
    ensures r.frames == s.frames + [AnimationFrame(region, duration)]
    ensures r.name == s.name && r.capacity == s.capacity && r.looping == s.looping
  {
    s.(frames := s.frames + [AnimationFrame(region, duration)])
  }

  /** Every frame lasts a positive time and there is at least one. */
  predicate Playable(frames: seq<AnimationFrame>)
  {
    |frames| >= 1 && forall k :: 0 <= k < |frames| ==> frames[k].duration > 0.0
  }

  /** The shortest frame duration. */
  function MinDuration(frames: seq<AnimationFrame>): (m: real)
    requires |frames| >= 1
    ensures forall k :: 0 <= k < |frames| ==> m <= frames[k].duration
    ensures exists k :: 0 <= k < |frames| && m == frames[k].duration
    decreases |frames|
  {
    if |frames| == 1 then frames[0].duration
    else
      var rest := MinDuration(frames[1..]);
      assert forall k :: 1 <= k < |frames| ==> frames[k] == frames[1..][k - 1];
      if frames[0].duration <= rest then frames[0].duration else rest
  }

  /** An upper bound on the frames the accumulated time `t` can still pay for at `m` each. */
  function Budget(t: real, m: real): nat
    requires m > 0.0
  {
    if t < 0.0 then 0 else (t / m).Floor as nat + 1
  }

  /** Paying one frame of at least `m` lowers the budget. */
  lemma BudgetDecreases(t: real, d: real, m: real)
    requires 0.0 < m <= d <= t
    ensures Budget(t - d, m) < Budget(t, m)
  {
    var q := d / m;
    assert q * m == d;
    assert q >= 1.0;
    assert (t - d) / m == t / m - q;
  }

  /** The controller state updateAnimation works on. */
  datatype Playhead = Playhead(frame: nat, time: real, playing: bool)

  /**
   * The frame-advance rule of updateAnimation, starting on `frame` with `time`
   * accumulated: while the time covers the current frame's duration, that
   * duration is consumed and the next frame is shown; past the last frame a
   * looping sequence restarts at frame 0 and any other stops on its last frame.
   */
  function Advance(frames: seq<AnimationFrame>, looping: bool, frame: nat, time: real): (r: Playhead)
    requires Playable(frames) && frame < |frames|
    ensures r.frame < |frames|
    ensures r.playing ==> r.time < frames[r.frame].duration
    ensures !r.playing ==> !looping && r.frame == |frames| - 1
    ensures looping ==> r.playing
    ensures time < frames[frame].duration ==> r == Playhead(frame, time, true)
    ensures r.time <= time
    decreases Budget(time, MinDuration(frames))
  {
    if time < frames[frame].duration then Playhead(frame, time, true)
    else
      var rest := time - frames[frame].duration;
      BudgetDecreases(time, frames[frame].duration, MinDuration(frames));
      if frame + 1 < |frames| then Advance(frames, looping, frame + 1, rest)
      else if looping then Advance(frames, looping, 0, rest)
      else Playhead(|frames| - 1, rest, false)
  }

  /**
   * Starting from a paid-off state, a delta smaller than every frame
   * duration advances at most one frame.
   */
  lemma {:induction false} AdvanceShortDelta(frames: seq<AnimationFrame>, looping: bool, frame: nat,
                                             time: real, delta: real)
    requires Playable(frames) && frame < |frames|
    requires 0.0 <= time < frames[frame].duration && 0.0 <= delta < MinDuration(frames)
    ensures var r := Advance(frames, looping, frame, time + delta);
      r.frame == frame || (r.frame == frame + 1 && r.playing) || (frame == |frames| - 1 && (r.frame == 0 || !r.playing))
  {
    var t := time + delta;
    if t >= frames[frame].duration {
      var rest := t - frames[frame].duration;
      assert rest < MinDuration(frames);
      if frame + 1 < |frames| {
        assert rest < frames[frame + 1].duration;
      } else if looping {
        assert rest < frames[0].duration;
      }
    }
  }

  /** The index of the first sequence named `name`, or -1 when there is none. */
  function NameIndex(sequences: seq<AnimationSequence>, name: string): (i: int)
    ensures -1 <= i < |sequences|
    ensures i >= 0 ==> sequences[i].name == name && forall k :: 0 <= k < i ==> sequences[k].name != name
    ensures i == -1 <==> forall k :: 0 <= k < |sequences| ==> sequences[k].name != name
    decreases |sequences|
  {
    if sequences == [] then -1
    else if sequences[0].name == name then 0
    else
      var rest := NameIndex(sequences[1..], name);
      assert forall k :: 1 <= k < |sequences| ==> sequences[k] == sequences[1..][k - 1];
      if rest < 0 then -1 else rest + 1
  }

  /** The sprite definition an animated sprite draws; only its atlas region changes. */
  class SpriteDefinition {
    var region: AtlasRegion

    constructor (region: AtlasRegion)
      ensures this.region == region
    {
      this.region := region;
    }
  }

  class AnimationController {
    var sequences: seq<AnimationSequence>
    /** Index of the active sequence; -1 when none. */
    var currentSequence: int
    var currentFrame: int
    var timeAccumulated: real
    var playing: bool

    /** createAnimationController: no sequences, none active, stopped at frame 0. */
    constructor ()
      ensures sequences == [] && currentSequence == -1 && currentFrame == 0
      ensures timeAccumulated == 0.0 && !playing
    {
      sequences := [];
      currentSequence := -1;
      currentFrame := 0;
      timeAccumulated := 0.0;
      playing := false;
    }

    /** addAnimationSequence: the sequence is appended; nothing else changes. */
    method AddAnimationSequence(s: AnimationSequence)
      modifies this`sequences
      ensures sequences == old(sequences) + [s]
    {
      sequences := sequences + [s];
    }

    /**
     * findAnimationSequence: a linear scan comparing names, returning the
     * lowest index whose sequence is named `name`, or -1 when none is.
     */
    method FindAnimationSequence(name: string) returns (index: int)
      ensures index == NameIndex(sequences, name)
    {
      for i := 0 to |sequences|
        invariant forall k :: 0 <= k < i ==> sequences[k].name != name
      {
        if sequences[i].name == name {
          return i;
        }
      }
      return -1;
    }
  }
}
