/**
 * bot/effects/video.py: the frame loop of `apply_video_effect`. Frames are
 * symbolic: what cv2 decodes, resizes and transforms is kept as a term, so
 * the model is about which frames are written, in which order and under
 * which counter value, not about their pixels.
 */
module VideoEffects {
  import opened Wrappers

  /** `ALL_VIDEO_EFFECTS`, in keyboard order. */
  const AllVideoEffects: seq<string> := [
    "shake", "zoom", "glitch", "boomerang", "slowmo", "neon", "rotate",
    "kaleidoscope", "rainbow", "vibrance", "invert", "fire", "hologram", "vhs", "epic"
  ]

  /** `max_frames`: six seconds at 30 frames per second. */
  const MaxFrames: nat := 180

  const Fps: nat := 30
  const Side: nat := 512

  /**
   * A frame: one the capture decoded, that frame resized to 512 x 512, or the
   * cv2 transform of an effect applied to a frame while `frame_count` was
   * `count` (the random shake and vhs noise included).
   */
  datatype Image = Decoded(index: nat) | Resized(src: Image) | Fx(effect: string, count: nat, src: Image)

  /**
   * The frame after the effect's branch of the `elif` chain: glitch alters it
   * on `frame_count % 6 < 2`, invert on `frame_count % 10 < 5`, boomerang and
   * slowmo only decide whether to skip, an unknown name falls through every
   * branch, and the other effects always transform it.
   */
  function Transform(effect: string, count: nat, frame: Image): (r: Image)
    ensures r == frame || r == Fx(effect, count, frame)
    ensures effect == "glitch" ==> (r == frame <==> count % 6 >= 2)
    ensures effect == "invert" ==> (r == frame <==> count % 10 >= 5)
    ensures effect == "boomerang" || effect == "slowmo" || effect !in AllVideoEffects ==> r == frame
    ensures effect in AllVideoEffects && effect !in {"glitch", "invert", "boomerang", "slowmo"} ==> r != frame
  {
    if effect == "glitch" then (if count % 6 < 2 then Fx(effect, count, frame) else frame)
    else if effect == "invert" then (if count % 10 < 5 then Fx(effect, count, frame) else frame)
    else if effect == "boomerang" || effect == "slowmo" then frame
    else if effect in AllVideoEffects then Fx(effect, count, frame)
    else frame
  }

  /**
   * `int(t * 15) % 2 == 1` with `t = frame_count / 30.0`: a floating-point
   * test, given as a parameter.
   */
  type BoomerangSkip = nat -> bool

  /** Whether the effect's branch `continue`s at this count, before the write and the increment. */
  predicate Skips(effect: string, count: nat, boomerangSkip: BoomerangSkip) {
    (effect == "boomerang" && boomerangSkip(count)) || (effect == "slowmo" && count % 2 == 1)
  }

  /**
   * The frames written from capture position `pos` on, with `frame_count`
   * at `count`: the loop stops at the cap or when the capture runs dry; a
   * skipped frame is consumed without advancing the count; an unskipped
   * frame is written when the count is even and then advances it.
   */
  function Written(effect: string, frames: seq<Image>, pos: nat, count: nat, boomerangSkip: BoomerangSkip)
    : seq<Image>
    decreases |frames| - pos
  {
    if count >= MaxFrames || pos >= |frames| then []
    else if Skips(effect, count, boomerangSkip) then Written(effect, frames, pos + 1, count, boomerangSkip)
    else
      var frame := Transform(effect, count, Resized(frames[pos]));
      (if count % 2 == 0 then [frame] else []) + Written(effect, frames, pos + 1, count + 1, boomerangSkip)
  }

  /** `cv2.VideoCapture`: the decoded frames and a read position. */
  class Capture {
    const frames: seq<Image>
    var pos: nat
    var released: bool

    constructor (frames: seq<Image>)
      ensures this.frames == frames && pos == 0 && !released
    {
      this.frames, pos, released := frames, 0, false;
    }

    /** `cap.read()`: the next frame, or nothing once every frame was read. */
    method Read() returns (frame: Option<Image>)
      modifies this
      ensures old(pos) < |frames| ==> frame == Some(frames[old(pos)]) && pos == old(pos) + 1
      ensures old(pos) >= |frames| ==> frame.None? && pos == old(pos)
      ensures released == old(released)
    {
      if pos < |frames| {
        frame := Some(frames[pos]);
        pos := pos + 1;
      } else {
        frame := None;
      }
    }

    method Release()
      modifies this
      ensures released && pos == old(pos)
    {
      released := true;
    }
  }

  /** `cv2.VideoWriter`: its file, rate and size, and the frames written so far. */
  class Writer {
    const path: string
    const fps: nat
    const width: nat
    const height: nat
    var written: seq<Image>
    var released: bool

    constructor (path: string, fps: nat, width: nat, height: nat)
      ensures this.path == path && this.fps == fps && this.width == width && this.height == height
      ensures written == [] && !released
    {
      this.path, this.fps, this.width, this.height := path, fps, width, height;
      written, released := [], false;
    }

    /** `out.write(frame)`: appended. */
    method Write(frame: Image)
      modifies this
      ensures written == old(written) + [frame] && released == old(released)
    {
      written := written + [frame];
    }

    method Release()
      modifies this
      ensures released && written == old(written)
    {
      released := true;
    }
  }

  /** `f"/tmp/{uuid.uuid4()}.webm"`, the uuid given. */
  function OutputPath(id: string): string {
    "/tmp/" + id + ".webm"
  }

  /**
   * `apply_video_effect`: read, resize, apply the effect's branch, write on
   * even counts, until the cap or the end of the capture. The writer is a
   * fresh 30 fps, 512 x 512 `.webm`; both handles are released and the
   * writer's path returned.
   */
  method ApplyVideoEffect(frames: seq<Image>, effect: string, id: string, boomerangSkip: BoomerangSkip)
    returns (outPath: string, cap: Capture, out: Writer)
    ensures fresh(cap) && fresh(out)
    ensures outPath == OutputPath(id) && out.path == outPath
    ensures out.fps == Fps && out.width == Side && out.height == Side
    ensures out.written == Written(effect, frames, 0, 0, boomerangSkip)
    ensures cap.released && out.released
  {
    cap := new Capture(frames);
    outPath := OutputPath(id);
    out := new Writer(outPath, Fps, Side, Side);
    var frameCount: nat := 0;
    while frameCount < MaxFrames
      invariant cap.pos <= |frames|
      invariant out.written + Written(effect, frames, cap.pos, frameCount, boomerangSkip)
             == Written(effect, frames, 0, 0, boomerangSkip)
      decreases |frames| - cap.pos
    {
      var done;
      done, frameCount := Turn(cap, out, effect, frameCount, boomerangSkip);
      if done {
        break;
      }
    }
    cap.Release();
    out.Release();
  }

  /**
   * One turn of the `while` loop: read a frame, or report the capture dry;
   * skip it for boomerang and slowmo, or transform it, write it on an even
   * count and advance the count.
   */
  method Turn(cap: Capture, out: Writer, effect: string, count: nat, boomerangSkip: BoomerangSkip)
    returns (done: bool, next: nat)
    requires count < MaxFrames && cap.pos <= |cap.frames|
    modifies cap, out
    ensures done <==> old(cap.pos) == |cap.frames|
    ensures done ==> cap.pos == old(cap.pos) && next == count && out.written == old(out.written)
    ensures !done ==> cap.pos == old(cap.pos) + 1
    ensures out.written + Written(effect, cap.frames, cap.pos, next, boomerangSkip)
         == old(out.written) + Written(effect, cap.frames, old(cap.pos), count, boomerangSkip)
  {
    next := count;
    var read := cap.Read();
    if read.None? {
      return true, count;
    }
    done := false;
    var frame := Resized(read.value);
    if effect == "boomerang" && boomerangSkip(count) {
      WrittenSkip(effect, cap.frames, cap.pos - 1, count, boomerangSkip);
      return;
    } else if effect == "slowmo" && count % 2 == 1 {
      WrittenSkip(effect, cap.frames, cap.pos - 1, count, boomerangSkip);
      return;
    }
    WrittenStep(effect, cap.frames, cap.pos - 1, count, boomerangSkip);
    frame := Transform(effect, count, frame);
    if count % 2 == 0 {
      out.Write(frame);
    }
    next := count + 1;
  }

  /** Even counts below the cap from `count` on: `(MaxFrames - count) / 2`. */
  lemma {:induction false} WrittenBound(effect: string, frames: seq<Image>, pos: nat, count: nat, boomerangSkip: BoomerangSkip)
    requires count <= MaxFrames
    ensures |Written(effect, frames, pos, count, boomerangSkip)| <= (MaxFrames - count) / 2
    decreases |frames| - pos
  {
    if count >= MaxFrames || pos >= |frames| {
    } else if Skips(effect, count, boomerangSkip) {
      WrittenBound(effect, frames, pos + 1, count, boomerangSkip);
    } else {
      WrittenBound(effect, frames, pos + 1, count + 1, boomerangSkip);
    }
  }

  /** At most 90 frames are written, whatever the effect and the clip. */
  lemma AtMostNinety(effect: string, frames: seq<Image>, boomerangSkip: BoomerangSkip)
    ensures |Written(effect, frames, 0, 0, boomerangSkip)| <= MaxFrames / 2
  {
    WrittenBound(effect, frames, 0, 0, boomerangSkip);
  }

  /**
   * Once a count is skipped nothing more is written: the count does not
   * move, so every later frame is skipped too, up to the end of the clip.
   */
  lemma {:induction false} SkipIsFinal(effect: string, frames: seq<Image>, pos: nat, count: nat, boomerangSkip: BoomerangSkip)
    requires Skips(effect, count, boomerangSkip)
    ensures Written(effect, frames, pos, count, boomerangSkip) == []
    decreases |frames| - pos
  {
    if count < MaxFrames && pos < |frames| {
      SkipIsFinal(effect, frames, pos + 1, count, boomerangSkip);
    }
  }

  /** Slowmo writes the first frame, resized, and nothing else. */
  lemma SlowmoWritesOneFrame(frames: seq<Image>, boomerangSkip: BoomerangSkip)
    ensures Written("slowmo", frames, 0, 0, boomerangSkip) == if frames == [] then [] else [Resized(frames[0])]
  {
    if frames != [] {
      SkipIsFinal("slowmo", frames, 1, 1, boomerangSkip);
    }
  }

  /**
   * Boomerang writes the resized frames up to its first skipped count, and
   * no frame after it.
   */
  lemma {:induction false} BoomerangStopsAtFirstSkip(frames: seq<Image>, pos: nat, count: nat, boomerangSkip: BoomerangSkip)
    requires count < MaxFrames && pos < |frames| && boomerangSkip(count)
    ensures Written("boomerang", frames, pos, count, boomerangSkip) == []
  {
    SkipIsFinal("boomerang", frames, pos, count, boomerangSkip);
  }

  /** One skipped step: the frame is consumed and the count stays. */
  lemma WrittenSkip(effect: string, frames: seq<Image>, pos: nat, count: nat, boomerangSkip: BoomerangSkip)
    requires count < MaxFrames && pos < |frames| && Skips(effect, count, boomerangSkip)
    ensures Written(effect, frames, pos, count, boomerangSkip) == Written(effect, frames, pos + 1, count, boomerangSkip)
  {
  }

  /** One unskipped step: the frame is written when the count is even, then the count advances. */
  lemma WrittenStep(effect: string, frames: seq<Image>, pos: nat, count: nat, boomerangSkip: BoomerangSkip)
    requires count < MaxFrames && pos < |frames| && !Skips(effect, count, boomerangSkip)
    ensures Written(effect, frames, pos, count, boomerangSkip)
         == (if count % 2 == 0 then [Transform(effect, count, Resized(frames[pos]))] else [])
            + Written(effect, frames, pos + 1, count + 1, boomerangSkip)
  {
  }

  /** The number of loop turns left from `pos` and `count` for an effect that never skips. */
  function Turns(frames: seq<Image>, pos: nat, count: nat): nat
    requires count <= MaxFrames && pos <= |frames|
  {
    if |frames| - pos < MaxFrames - count then |frames| - pos else MaxFrames - count
  }

  /**
   * `w` holds, at index i, the frame `2i` positions after `pos`, transformed
   * under the count `count + 2i`.
   */
  predicate EvenSchedule(effect: string, frames: seq<Image>, pos: nat, count: nat, w: seq<Image>) {
    forall i :: 0 <= i < |w| ==>
      pos + 2 * i < |frames| && w[i] == Transform(effect, count + 2 * i, Resized(frames[pos + 2 * i]))
  }

  /** Two unskipped steps from an even count: one frame written, one read and dropped. */
  lemma EvenThenOdd(effect: string, frames: seq<Image>, pos: nat, count: nat, boomerangSkip: BoomerangSkip)
    requires effect != "boomerang" && effect != "slowmo"
    requires count % 2 == 0 && count < MaxFrames && pos < |frames|
    ensures var first := Transform(effect, count, Resized(frames[pos]));
      var w := Written(effect, frames, pos, count, boomerangSkip);
      if count + 1 < MaxFrames && pos + 1 < |frames|
      then w == [first] + Written(effect, frames, pos + 2, count + 2, boomerangSkip)
      else w == [first]
  {
    WrittenStep(effect, frames, pos, count, boomerangSkip);
    if count + 1 < MaxFrames && pos + 1 < |frames| {
      WrittenStep(effect, frames, pos + 1, count + 1, boomerangSkip);
    }
  }

  /** For an effect that never skips, started at an even count, one frame is written per two loop turns, rounded up. */
  lemma {:induction false} EvenFramesCount(effect: string, frames: seq<Image>, pos: nat, count: nat, boomerangSkip: BoomerangSkip)
    requires effect != "boomerang" && effect != "slowmo"
    requires count % 2 == 0 && count <= MaxFrames && pos <= |frames|
    ensures |Written(effect, frames, pos, count, boomerangSkip)| == (Turns(frames, pos, count) + 1) / 2
    decreases |frames| - pos
  {
    var t := Turns(frames, pos, count);
    if count < MaxFrames && pos < |frames| {
      EvenThenOdd(effect, frames, pos, count, boomerangSkip);
      if count + 1 < MaxFrames && pos + 1 < |frames| {
        EvenFramesCount(effect, frames, pos + 2, count + 2, boomerangSkip);
        assert Turns(frames, pos + 2, count + 2) == t - 2;
        assert (t - 2 + 1) / 2 + 1 == (t + 1) / 2;
      } else {
        assert t == 1;
      }
    } else {
      assert t == 0;
    }
  }

  /**
   * For an effect that never skips, started at an even count, the i-th
   * frame written is the frame `2i` positions on, transformed under the
   * count `count + 2i`: odd counts are read and dropped.
   */
  lemma {:induction false} EvenFramesWritten(effect: string, frames: seq<Image>, pos: nat, count: nat, boomerangSkip: BoomerangSkip)
    requires effect != "boomerang" && effect != "slowmo"
    requires count % 2 == 0 && count <= MaxFrames && pos <= |frames|
    ensures EvenSchedule(effect, frames, pos, count, Written(effect, frames, pos, count, boomerangSkip))
    decreases |frames| - pos
  {
    if count < MaxFrames && pos < |frames| {
      var first := Transform(effect, count, Resized(frames[pos]));
      EvenThenOdd(effect, frames, pos, count, boomerangSkip);
      if count + 1 < MaxFrames && pos + 1 < |frames| {
        EvenFramesWritten(effect, frames, pos + 2, count + 2, boomerangSkip);
        PrependEven(effect, frames, pos, count, first, Written(effect, frames, pos + 2, count + 2, boomerangSkip));
      } else {
        PrependEven(effect, frames, pos, count, first, []);
      }
    }
  }

  /** The indexing step of `EvenFramesWritten`: one frame in front shifts every later index by one and every count by two. */
  lemma PrependEven(effect: string, frames: seq<Image>, pos: nat, count: nat, first: Image, rest: seq<Image>)
    requires pos < |frames| && first == Transform(effect, count, Resized(frames[pos]))
    requires EvenSchedule(effect, frames, pos + 2, count + 2, rest)
    ensures EvenSchedule(effect, frames, pos, count, [first] + rest)
  {
    var w := [first] + rest;
    forall i | 1 <= i < |w|
      ensures pos + 2 * i < |frames| && w[i] == Transform(effect, count + 2 * i, Resized(frames[pos + 2 * i]))
    {
      var j := i - 1;
      assert w[i] == rest[j];
      assert count + 2 + 2 * j == count + 2 * i && pos + 2 + 2 * j == pos + 2 * i;
    }
  }

  /** Every effect other than boomerang and slowmo writes the even-numbered frames, as many as `(min(|frames|, 180) + 1) / 2`. */
  lemma PlainEffectSchedule(effect: string, frames: seq<Image>, boomerangSkip: BoomerangSkip)
    requires effect != "boomerang" && effect != "slowmo"
    ensures var w := Written(effect, frames, 0, 0, boomerangSkip);
      && |w| == ((if |frames| < MaxFrames then |frames| else MaxFrames) + 1) / 2
      && forall i :: 0 <= i < |w| ==> 2 * i < |frames| && w[i] == Transform(effect, 2 * i, Resized(frames[2 * i]))
  {
    EvenFramesCount(effect, frames, 0, 0, boomerangSkip);
    EvenFramesWritten(effect, frames, 0, 0, boomerangSkip);
  }

  /** Glitch alters written frame i exactly when i is a multiple of 3 (counts 0, 6, 12, ...). */
  lemma GlitchEveryThird(frames: seq<Image>, boomerangSkip: BoomerangSkip)
    ensures var w := Written("glitch", frames, 0, 0, boomerangSkip);
      forall i :: 0 <= i < |w| ==> (w[i].Fx? <==> i % 3 == 0)
  {
    PlainEffectSchedule("glitch", frames, boomerangSkip);
    var w := Written("glitch", frames, 0, 0, boomerangSkip);
    forall i | 0 <= i < |w|
      ensures w[i].Fx? <==> i % 3 == 0
    {
      GlitchAt(i, Resized(frames[2 * i]));
    }
  }

  /** The glitch branch at count `2 * i` alters a resized frame exactly when i is a multiple of 3. */
  lemma GlitchAt(i: nat, frame: Image)
    requires frame.Resized?
    ensures Transform("glitch", 2 * i, frame).Fx? <==> i % 3 == 0
  {
    assert (2 * i) % 6 == 2 * (i % 3);
  }

  /** Invert alters written frame i exactly when i mod 5 is below 3 (counts 0, 2, 4, 10, 12, 14, ...). */
  lemma InvertThreeOfFive(frames: seq<Image>, boomerangSkip: BoomerangSkip)
    ensures var w := Written("invert", frames, 0, 0, boomerangSkip);
      forall i :: 0 <= i < |w| ==> (w[i].Fx? <==> i % 5 < 3)
  {
    PlainEffectSchedule("invert", frames, boomerangSkip);
    var w := Written("invert", frames, 0, 0, boomerangSkip);
    forall i | 0 <= i < |w|
      ensures w[i].Fx? <==> i % 5 < 3
    {
      InvertAt(i, Resized(frames[2 * i]));
    }
  }

  /** The invert branch at count `2 * i` alters a resized frame exactly when i mod 5 is below 3. */
  lemma InvertAt(i: nat, frame: Image)
    requires frame.Resized?
    ensures Transform("invert", 2 * i, frame).Fx? <==> i % 5 < 3
  {
    assert (2 * i) % 10 == 2 * (i % 5);
  }

  /** A name outside the list writes the even-numbered frames only resized. */
  lemma UnknownEffectOnlyResizes(effect: string, frames: seq<Image>, boomerangSkip: BoomerangSkip)
    requires effect !in AllVideoEffects
    ensures var w := Written(effect, frames, 0, 0, boomerangSkip);
      forall i :: 0 <= i < |w| ==> 2 * i < |frames| && w[i] == Resized(frames[2 * i])
  {
    assert effect != "boomerang" && effect != "slowmo" by {
      assert AllVideoEffects[3] == "boomerang" && AllVideoEffects[4] == "slowmo";
    }
    PlainEffectSchedule(effect, frames, boomerangSkip);
  }
}
