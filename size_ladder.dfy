/**
 * main.py's `compress_until_size`: while the sticker file is over the size
 * cap, re-encode it along a fixed bitrate-by-framerate ladder, keeping a new
 * encode only when it succeeded and is strictly smaller. ffmpeg is an oracle
 * from (current file bytes, ladder step) to a `Run`.
 */
module SizeLadder {
  import opened Wrappers
  import opened Engine

  function Bitrates(): (rates: seq<string>)
    ensures |rates| == 5
  {
    ["240k", "180k", "140k", "110k", "90k"]
  }

  function Framerates(): (rates: seq<string>)
    ensures |rates| == 4
  {
    ["30", "25", "20", "15"]
  }

  /** The default `max_bytes`: 256 KiB, Telegram's video-sticker limit. */
  const StickerLimit: nat := 256 * 1024

  /** Number of ladder positions: 5 bitrates times 4 framerates. */
  const Attempts: nat := 20

  datatype Step = Step(bitrate: string, framerate: string)

  /** The re-encode command `ffmpeg -y -i path -c:v libvpx-vp9 -b:v br -r fr ... tmp`. */
  type Encoder = (seq<byte>, Step) -> Run

  /** Row b of the ladder: bitrate b with each framerate in order (the inner loop). */
  function Row(b: nat): (row: seq<Step>)
    requires b < |Bitrates()|
    ensures |row| == |Framerates()|
    ensures forall f :: 0 <= f < |row| ==> row[f] == Step(Bitrates()[b], Framerates()[f])
  {
    seq(|Framerates()|, f requires 0 <= f < |Framerates()| => Step(Bitrates()[b], Framerates()[f]))
  }

  /** The rows from bitrate b on, one after the other (the outer loop from b). */
  function RowsFrom(b: nat): (steps: seq<Step>)
    requires b <= |Bitrates()|
    decreases |Bitrates()| - b
  {
    if b == |Bitrates()| then [] else Row(b) + RowsFrom(b + 1)
  }

  /** The whole ladder in the order it is tried. */
  function Steps(): seq<Step> {
    RowsFrom(0)
  }

  /**
   * The rows from c on hold 4 * (5 - c) steps, bitrate-major: position
   * 4 * (b - c) + f holds bitrate b and framerate f.
   */
  lemma {:induction false} RowsFromBitrateMajor(c: nat, b: nat, f: nat)
    requires c <= b < |Bitrates()| && f < |Framerates()|
    ensures |RowsFrom(c)| == 4 * (|Bitrates()| - c)
    ensures RowsFrom(c)[4 * (b - c) + f] == Step(Bitrates()[b], Framerates()[f])
    decreases b - c
  {
    if c < b {
      RowsFromBitrateMajor(c + 1, b, f);
    } else {
      RowsFromLength(c + 1);
    }
  }

  lemma {:induction false} RowsFromLength(c: nat)
    requires c <= |Bitrates()|
    ensures |RowsFrom(c)| == 4 * (|Bitrates()| - c)
    decreases |Bitrates()| - c
  {
    if c < |Bitrates()| {
      RowsFromLength(c + 1);
    }
  }

  /** `Steps()` is the nested loops' order: 20 steps, position 4 * b + f holding bitrate b and framerate f. */
  lemma StepsBitrateMajor(b: nat, f: nat)
    requires b < |Bitrates()| && f < |Framerates()|
    ensures |Steps()| == Attempts
    ensures Steps()[4 * b + f] == Step(Bitrates()[b], Framerates()[f])
  {
    RowsFromBitrateMajor(0, b, f);
  }

  /** `code == 0 and tmp.exists()` and `tmp_size < path.stat().st_size`. */
  predicate Shrinks(current: seq<byte>, run: Run) {
    run.code == 0 && run.output.Some? && |run.output.value| < |current|
  }

  /** The file after one attempt: replaced by the encode if it shrinks, else left as it was. */
  function AfterAttempt(current: seq<byte>, run: Run): seq<byte> {
    if Shrinks(current, run) then run.output.value else current
  }

  /**
   * Reference definition of the ladder over the steps still to try: the final
   * file and the steps tried. The size test comes before every attempt; once
   * the steps run out the file is returned without one.
   */
  function Ladder(current: seq<byte>, maxBytes: nat, encode: Encoder, steps: seq<Step>): (seq<byte>, seq<Step>)
    decreases |steps|
  {
    if steps == [] || |current| <= maxBytes then (current, [])
    else
      var rest := Ladder(AfterAttempt(current, encode(current, steps[0])), maxBytes, encode, steps[1..]);
      (rest.0, [steps[0]] + rest.1)
  }

  /**
   * The ladder never grows the file, and either leaves it as it was or ends
   * strictly smaller; the steps tried are a prefix of the ladder, in order.
   */
  lemma {:induction false} LadderShrinksInOrder(current: seq<byte>, maxBytes: nat, encode: Encoder, steps: seq<Step>)
    ensures var r := Ladder(current, maxBytes, encode, steps);
      && (r.0 == current || |r.0| < |current|)
      && |r.1| <= |steps|
      && r.1 == steps[..|r.1|]
    decreases |steps|
  {
    if steps != [] && |current| > maxBytes {
      var next := AfterAttempt(current, encode(current, steps[0]));
      LadderShrinksInOrder(next, maxBytes, encode, steps[1..]);
    }
  }

  /** A file already within the cap is returned at once with no attempt. */
  lemma SmallFileUntouched(current: seq<byte>, maxBytes: nat, encode: Encoder, steps: seq<Step>)
    requires |current| <= maxBytes
    ensures Ladder(current, maxBytes, encode, steps) == (current, [])
  {
  }

  /**
   * A result still over the cap comes with every step tried: the function
   * gives up only when the ladder is exhausted, and returns the file without
   * an error.
   */
  lemma {:induction false} OversizeMeansExhausted(current: seq<byte>, maxBytes: nat, encode: Encoder, steps: seq<Step>)
    requires |Ladder(current, maxBytes, encode, steps).0| > maxBytes
    ensures Ladder(current, maxBytes, encode, steps).1 == steps
    decreases |steps|
  {
    if steps != [] && |current| > maxBytes {
      var next := AfterAttempt(current, encode(current, steps[0]));
      OversizeMeansExhausted(next, maxBytes, encode, steps[1..]);
    }
  }

  /** An encoder that never shrinks the file (every attempt fails or is no smaller) leaves it unchanged. */
  lemma {:induction false} NoShrinkNoChange(current: seq<byte>, maxBytes: nat, encode: Encoder, steps: seq<Step>)
    requires forall i :: 0 <= i < |steps| ==> !Shrinks(current, encode(current, steps[i]))
    ensures Ladder(current, maxBytes, encode, steps).0 == current
    decreases |steps|
  {
    if steps != [] && |current| > maxBytes {
      assert !Shrinks(current, encode(current, steps[0]));
      NoShrinkNoChange(current, maxBytes, encode, steps[1..]);
    }
  }

  /** One pass of the inner loop body: run ffmpeg and keep the result only if it shrinks the file. */
  method Attempt(path: seq<byte>, step: Step, encode: Encoder) returns (next: seq<byte>)
    ensures next == AfterAttempt(path, encode(path, step))
  {
    next := path;
    var run := encode(path, step);
    if run.code == 0 && run.output.Some? {
      var tmpSize := |run.output.value|;
      if tmpSize < |path| {
        next := run.output.value;
      }
    }
  }

  /**
   * The inner loop of `compress_until_size` for bitrate number b: the four
   * framerates in order, stopping as soon as the file is within the cap
   * (`done`, the point where the source returns). `later` stands for the rows
   * of the lower bitrates, still to come.
   */
  method TryBitrate(b: nat, path: seq<byte>, maxBytes: nat, encode: Encoder, ghost later: seq<Step>)
    returns (next: seq<byte>, steps: seq<Step>, done: bool)
    requires b < |Bitrates()|
    ensures |steps| <= |Framerates()|
    ensures Ladder(path, maxBytes, encode, Row(b) + later).0 == Ladder(next, maxBytes, encode, Row(b)[|steps|..] + later).0
    ensures Ladder(path, maxBytes, encode, Row(b) + later).1 == steps + Ladder(next, maxBytes, encode, Row(b)[|steps|..] + later).1
    ensures done ==> |next| <= maxBytes
    ensures !done ==> |steps| == |Framerates()|
  {
    ghost var row := Row(b);
    next, steps := path, [];
    for f := 0 to |Framerates()|
      invariant |steps| == f
      invariant Ladder(path, maxBytes, encode, row + later).0 == Ladder(next, maxBytes, encode, row[f..] + later).0
      invariant Ladder(path, maxBytes, encode, row + later).1 == steps + Ladder(next, maxBytes, encode, row[f..] + later).1
    {
      if |next| <= maxBytes {
        done := true;
        return;
      }
      var step := Step(Bitrates()[b], Framerates()[f]);
      var after := Attempt(next, step, encode);
      ghost var todo := row[f..] + later;
      assert todo[0] == step && todo[1..] == row[f + 1..] + later;
      assert steps + ([step] + Ladder(after, maxBytes, encode, todo[1..]).1)
          == (steps + [step]) + Ladder(after, maxBytes, encode, todo[1..]).1;
      steps := steps + [step];
      next := after;
    }
    done := false;
  }

  /**
   * `compress_until_size`: the outer loop over the bitrates. Besides the final
   * file it returns the steps it ran ffmpeg with, in order.
   */
  method CompressUntilSize(data: seq<byte>, maxBytes: nat, encode: Encoder)
    returns (final: seq<byte>, tried: seq<Step>)
    ensures (final, tried) == Ladder(data, maxBytes, encode, Steps())
  {
    ghost var spec := Ladder(data, maxBytes, encode, Steps());
    var path := data;
    tried := [];
    for b := 0 to |Bitrates()|
      invariant |tried| == 4 * b
      invariant spec.0 == Ladder(path, maxBytes, encode, RowsFrom(b)).0
      invariant spec.1 == tried + Ladder(path, maxBytes, encode, RowsFrom(b)).1
    {
      ghost var later := RowsFrom(b + 1);
      var next, steps, done := TryBitrate(b, path, maxBytes, encode, later);
      ghost var rest := Ladder(next, maxBytes, encode, Row(b)[|steps|..] + later);
      assert tried + (steps + rest.1) == (tried + steps) + rest.1;
      tried, path := tried + steps, next;
      if done {
        assert rest.1 == [];
        assert tried + [] == tried;
        final := path;
        return;
      }
      assert Row(b)[|steps|..] + later == later;
    }
    assert Ladder(path, maxBytes, encode, RowsFrom(|Bitrates()|)).1 == [];
    assert tried + [] == tried;
    final := path;
  }
}
