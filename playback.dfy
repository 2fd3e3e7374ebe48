/**
 * Animation playback on a sprite, from the sketch in src/main_old.c: start,
 * stop, pause and resume a named sequence, and advance the showing frame by
 * elapsed time. Every operation does nothing when the sprite has no
 * controller; the sprite's definition shows the region of the current frame.
 */
module Playback {
  import opened Animation
  import opened Scene

  /**
   * playAnimation: nothing happens without a controller, for an unknown
   * name, or when that sequence is already playing and `restart` is false.
   * Otherwise the sequence becomes current at frame 0 with no time
   * accumulated, playing, and the definition shows its first frame.
   */
  method PlayAnimation(sprite: Sprite, name: string, restart: bool)
    requires sprite.animations != null && NameIndex(sprite.animations.sequences, name) >= 0 ==>
      |sprite.animations.sequences[NameIndex(sprite.animations.sequences, name)].frames| >= 1
    modifies sprite.animations, sprite.definition
    ensures var c := sprite.animations;
      c == null ==> unchanged(sprite.definition)
    ensures var c := sprite.animations;
      c != null ==>
        var i := NameIndex(c.sequences, name);
        if i < 0 || (old(c.currentSequence) == i && old(c.playing) && !restart) then
          unchanged(c) && unchanged(sprite.definition)
        else
          && c.sequences == old(c.sequences)
          && c.currentSequence == i && c.currentFrame == 0 && c.timeAccumulated == 0.0 && c.playing
          && sprite.definition.region == c.sequences[i].frames[0].region
  {
    if sprite.animations == null {
      return;
    }
    var controller := sprite.animations;
    var sequenceIndex := controller.FindAnimationSequence(name);
    if sequenceIndex < 0 {
      return;
    }
    if controller.currentSequence == sequenceIndex && controller.playing && !restart {
      return;
    }
    controller.currentSequence := sequenceIndex;
    controller.currentFrame := 0;
    controller.timeAccumulated := 0.0;
    controller.playing := true;
    sprite.definition.region := controller.sequences[controller.currentSequence].frames[0].region;
  }

  /**
   * stopAnimation: playback stops and rewinds to frame 0 with no time
   * accumulated; when a sequence is current, the definition shows its first
   * frame again.
   */
  method StopAnimation(sprite: Sprite)
    requires sprite.animations != null && sprite.animations.currentSequence >= 0 ==>
      && sprite.animations.currentSequence < |sprite.animations.sequences|
      && |sprite.animations.sequences[sprite.animations.currentSequence].frames| >= 1
    modifies sprite.animations, sprite.definition
    ensures var c := sprite.animations;
      c == null ==> unchanged(sprite.definition)
    ensures var c := sprite.animations;
      c != null ==>
        && c.sequences == old(c.sequences) && c.currentSequence == old(c.currentSequence)
        && !c.playing && c.currentFrame == 0 && c.timeAccumulated == 0.0
        && (c.currentSequence >= 0 ==> sprite.definition.region == c.sequences[c.currentSequence].frames[0].region)
        && (c.currentSequence < 0 ==> unchanged(sprite.definition))
  {
    if sprite.animations == null {
      return;
    }
    var controller := sprite.animations;
    controller.playing := false;
    controller.currentFrame := 0;
    controller.timeAccumulated := 0.0;
    if controller.currentSequence >= 0 {
      sprite.definition.region := controller.sequences[controller.currentSequence].frames[0].region;
    }
  }

  /** pauseAnimation: only the playing flag changes, to false. */
  method PauseAnimation(sprite: Sprite)
    modifies sprite.animations
    ensures sprite.animations != null ==>
      !sprite.animations.playing
      && sprite.animations.sequences == old(sprite.animations.sequences)
      && sprite.animations.currentSequence == old(sprite.animations.currentSequence)
      && sprite.animations.currentFrame == old(sprite.animations.currentFrame)
      && sprite.animations.timeAccumulated == old(sprite.animations.timeAccumulated)
  {
    if sprite.animations == null {
      return;
    }
    sprite.animations.playing := false;
  }

  /** resumeAnimation: only the playing flag changes, to true; frame and time carry on. */
  method ResumeAnimation(sprite: Sprite)
    modifies sprite.animations
    ensures sprite.animations != null ==>
      sprite.animations.playing
      && sprite.animations.sequences == old(sprite.animations.sequences)
      && sprite.animations.currentSequence == old(sprite.animations.currentSequence)
      && sprite.animations.currentFrame == old(sprite.animations.currentFrame)
      && sprite.animations.timeAccumulated == old(sprite.animations.timeAccumulated)
  {
    if sprite.animations == null {
      return;
    }
    sprite.animations.playing := true;
  }

  /**
   * The frame loop of updateAnimation on the current sequence: the elapsed
   * time is added, then whole frame durations are paid while the time covers
   * the current frame.
   */
  method ConsumeTime(controller: AnimationController, frames: seq<AnimationFrame>, looping: bool, deltaTime: real)
    requires Playable(frames) && 0 <= controller.currentFrame < |frames| && controller.playing
    modifies controller`currentFrame, controller`timeAccumulated, controller`playing
    ensures var r := Advance(frames, looping, old(controller.currentFrame), old(controller.timeAccumulated) + deltaTime);
      controller.currentFrame == r.frame && controller.timeAccumulated == r.time && controller.playing == r.playing
  {
    ghost var target := Advance(frames, looping, controller.currentFrame, controller.timeAccumulated + deltaTime);
    controller.timeAccumulated := controller.timeAccumulated + deltaTime;
    var currentFrame := frames[controller.currentFrame];
    while controller.timeAccumulated >= currentFrame.duration
      invariant 0 <= controller.currentFrame < |frames| && controller.playing
      invariant currentFrame == frames[controller.currentFrame]
      invariant Advance(frames, looping, controller.currentFrame, controller.timeAccumulated) == target
      decreases Budget(controller.timeAccumulated, MinDuration(frames))
    {
      BudgetDecreases(controller.timeAccumulated, currentFrame.duration, MinDuration(frames));
      controller.timeAccumulated := controller.timeAccumulated - currentFrame.duration;
      controller.currentFrame := controller.currentFrame + 1;
      if controller.currentFrame >= |frames| {
        if looping {
          controller.currentFrame := 0;
        } else {
          controller.currentFrame := |frames| - 1;
          controller.playing := false;
          break;
        }
      }
      currentFrame := frames[controller.currentFrame];
    }
  }

  /** The guard of updateAnimation: a controller that is playing a sequence that exists. */
  predicate Runs(c: AnimationController?)
    reads c
  {
    c != null && c.playing && 0 <= c.currentSequence < |c.sequences|
  }

  /**
   * updateAnimation: when playing a valid sequence, the elapsed time is added
   * and frames are consumed as Advance describes; the definition then shows
   * the current frame. The loop only ends when every frame of the sequence
   * lasts a positive time and there is one, so callers must ensure both.
   */
  method UpdateAnimation(sprite: Sprite, deltaTime: real)
    requires Runs(sprite.animations) ==>
      var c := sprite.animations;
      Playable(c.sequences[c.currentSequence].frames)
      && 0 <= c.currentFrame < |c.sequences[c.currentSequence].frames|
    modifies sprite.animations, sprite.definition
    ensures !old(Runs(sprite.animations)) ==>
      unchanged(sprite.definition) && (sprite.animations != null ==> unchanged(sprite.animations))
    ensures old(Runs(sprite.animations)) ==>
      var c := sprite.animations;
      var s := old(c.sequences[c.currentSequence]);
      var r := Advance(s.frames, s.looping, old(c.currentFrame), old(c.timeAccumulated) + deltaTime);
      && c.sequences == old(c.sequences) && c.currentSequence == old(c.currentSequence)
      && c.currentFrame == r.frame && c.timeAccumulated == r.time && c.playing == r.playing
      && 0 <= c.currentFrame < |s.frames|
      && sprite.definition.region == s.frames[c.currentFrame].region
  {
    if sprite.animations == null || !sprite.animations.playing {
      return;
    }
    var controller := sprite.animations;
    if controller.currentSequence < 0 || controller.currentSequence >= |controller.sequences| {
      return;
    }
    var sequence := controller.sequences[controller.currentSequence];
    ConsumeTime(controller, sequence.frames, sequence.looping, deltaTime);
    sprite.definition.region := sequence.frames[controller.currentFrame].region;
  }
}
