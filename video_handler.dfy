/**
 * bot/handlers/video.py: the `VideoState` dialogue. A video is saved under a
 * fresh path, a keyboard of the fifteen effects is offered, and the chosen
 * effect's callback renders the clip, sends it and removes both files.
 */
module VideoHandler {
  import opened Wrappers
  import opened Strs
  import opened Markup
  import opened Storage
  import opened Fsm
  import opened VideoEffects

  /** The button texts of `video_start`, in the order of `ALL_VIDEO_EFFECTS`. */
  const Labels: seq<string> := [
    "1st SHAKE", "2nd ZOOM", "3rd GLITCH", "4th BOOMERANG", "5th SLOWMO",
    "6th NEON", "7th ROTATE", "8th KALEIDO", "9th RAINBOW", "10th VIBRANCE",
    "11th INVERT", "12th FIRE", "13th HOLO", "14th VHS", "15th EPIC"
  ]

  /** The callback prefix the `apply_effect` filter looks for. */
  const CallbackPrefix: string := "vfx_"

  /** Button k: its text, and `vfx_` followed by effect k. */
  function KeyButton(k: nat): Button
    requires k < |Labels| && k < |AllVideoEffects|
  {
    Button(Labels[k], CallbackPrefix + AllVideoEffects[k])
  }

  function Min(a: int, b: int): int {
    if a < b then a else b
  }

  /** The inner loop of `video_start`: the buttons from index i, at most three. */
  method BuildRow(i: nat) returns (row: seq<Button>)
    requires i < |Labels|
    ensures |row| == Min(3, |Labels| - i)
    ensures forall j :: 0 <= j < |row| ==> row[j] == KeyButton(i + j)
  {
    row := [];
    for j := 0 to Min(3, |Labels| - i)
      invariant |row| == j
      invariant forall j' :: 0 <= j' < j ==> row[j'] == KeyButton(i + j')
    {
      var effect := AllVideoEffects[i + j];
      row := row + [Button(Labels[i + j], CallbackPrefix + effect)];
    }
  }

  /**
   * The rows `video_start` adds: rows start at i = 0, 3, ..., 12 and hold
   * `min(3, 15 - i)` buttons each, so button k sits in row k / 3 at column
   * k % 3, and all five rows are full.
   */
  method BuildKeyboard() returns (rows: seq<seq<Button>>)
    ensures |rows| == 5
    ensures forall r :: 0 <= r < |rows| ==> |rows[r]| == 3
    ensures forall k :: 0 <= k < |Labels| ==> rows[k / 3][k % 3] == KeyButton(k)
  {
    rows := [];
    var i := 0;
    while i < |Labels|
      invariant 0 <= i <= |Labels| && i == 3 * |rows|
      invariant forall r :: 0 <= r < |rows| ==> |rows[r]| == 3
      invariant forall r, c :: 0 <= r < |rows| && 0 <= c < 3 ==> rows[r][c] == KeyButton(3 * r + c)
    {
      var row := BuildRow(i);
      rows := rows + [row];
      i := i + 3;
    }
    forall k | 0 <= k < |Labels|
      ensures rows[k / 3][k % 3] == KeyButton(k)
    {
      assert k == 3 * (k / 3) + k % 3;
    }
  }

  /** `call.data[4:]`: Python's slice, empty when the data is shorter. */
  function EffectOfCallback(data: string): (effect: string)
    ensures StartsWith(data, CallbackPrefix) ==> CallbackPrefix + effect == data
    ensures |data| < 4 ==> effect == ""
  {
    if |data| >= 4 then data[4..] else ""
  }

  /** Each button is routed to `apply_effect` in the waiting state and carries its own effect back. */
  lemma ButtonCallbackRoundTrip(k: nat)
    requires k < |Labels|
    ensures EffectOfCallback(KeyButton(k).data) == AllVideoEffects[k]
    ensures Route(VideoWaiting, CallbackQuery(KeyButton(k).data)) == Handler.ApplyEffect
    ensures forall s :: s != VideoWaiting ==> Route(s, CallbackQuery(KeyButton(k).data)) != Handler.ApplyEffect
  {
    var data := KeyButton(k).data;
    assert data == CallbackPrefix + AllVideoEffects[k];
    assert data[..4] == CallbackPrefix;
  }

  /** `f"/tmp/vid_{uuid.uuid4()}.webm"`, the uuid given. */
  function InputPath(id: string): string {
    "/tmp/vid_" + id + ".webm"
  }

  /**
   * The upload's path never collides with a rendered file's path when the
   * latter's uuid has no underscore, as the hex-and-dash uuid4 text has not.
   */
  lemma InputNeverOutput(a: string, b: string)
    requires '_' !in b
    ensures InputPath(a) != OutputPath(b)
  {
    var i, o := InputPath(a), OutputPath(b);
    if |i| == |o| {
      assert o[8] == b[3] && i[8] == '_';
    }
  }

  /**
   * `video_start`: save the clip under a fresh path, store the path, offer
   * the keyboard, enter the waiting state.
   */
  method VideoStart(ctx: Context, disk: Disk, id: string, video: seq<byte>) returns (rows: seq<seq<Button>>)
    modifies ctx, disk
    ensures disk.files == old(disk.files)[InputPath(id) := video]
    ensures ctx.data == old(ctx.data)["path" := InputPath(id)] && ctx.state == VideoWaiting
    ensures |rows| == 5 && (forall r :: 0 <= r < |rows| ==> |rows[r]| == 3)
    ensures forall k :: 0 <= k < |Labels| ==> rows[k / 3][k % 3] == KeyButton(k)
  {
    var path := InputPath(id);
    disk.Write(path, video);
    ctx.UpdateData("path", path);
    rows := BuildKeyboard();
    ctx.SetState(VideoWaiting);
  }

  /** How cv2 decodes a file into frames. */
  type Decoder = seq<byte> -> seq<Image>

  /** What the VP9 writer stores for the frames written. */
  type VideoEncoder = seq<Image> -> seq<byte>

  /** The video note sent and the text of the callback answer. */
  datatype Sent = Sent(note: seq<byte>, notice: string)

  /**
   * The frames `apply_video_effect` reads from a path: none when the file is
   * missing, since the capture then never yields a frame.
   */
  function FramesAt(files: map<string, seq<byte>>, path: string, decode: Decoder): seq<Image> {
    if path in files then decode(files[path]) else []
  }

  /** The rendered note for a stored path and a callback. */
  function Note(files: map<string, seq<byte>>, path: string, data: string, decode: Decoder,
                encode: VideoEncoder, boomerangSkip: BoomerangSkip): seq<byte>
  {
    encode(Written(EffectOfCallback(data), FramesAt(files, path, decode), 0, 0, boomerangSkip))
  }

  /**
   * `apply_effect`: render the stored clip with the effect after `vfx_`,
   * send it, remove the upload and the rendered file, finish the dialogue
   * and answer with the upper-cased effect name. A missing path key raises
   * at once; a failed send leaves both files; a missing upload raises after
   * the send, leaving the rendered file behind.
   */
  method ApplyEffect(ctx: Context, disk: Disk, data: string, resultId: string, decode: Decoder,
                     encode: VideoEncoder, boomerangSkip: BoomerangSkip, sendOk: bool)
    returns (r: Result<Sent, Fault>)
    requires OutputPath(resultId) !in disk.files && OutputPath(resultId) !in ctx.data.Values
    modifies ctx, disk
    ensures "path" !in old(ctx.data) ==>
      r == Err(KeyError("path")) && disk.files == old(disk.files)
    ensures "path" in old(ctx.data) ==>
      var path := old(ctx.data)["path"];
      var note := Note(old(disk.files), path, data, decode, encode, boomerangSkip);
      && (!sendOk ==> r == Err(SendFailed) && disk.files == old(disk.files)[OutputPath(resultId) := note])
      && (sendOk && path !in old(disk.files) ==>
            r == Err(FileNotFound(path)) && disk.files == old(disk.files)[OutputPath(resultId) := note])
      && (sendOk && path in old(disk.files) ==>
            r == Ok(Sent(note, Upper(EffectOfCallback(data)) + " готов!")) && disk.files == old(disk.files) - {path})
    ensures r.Ok? ==> ctx.state == Idle && ctx.data == map[]
    ensures r.Err? ==> ctx.state == old(ctx.state) && ctx.data == old(ctx.data)
  {
    var effect := EffectOfCallback(data);
    if "path" !in ctx.data {
      return Err(KeyError("path"));
    }
    var path := ctx.data["path"];
    var frames := FramesAt(disk.files, path, decode);
    var resultPath, cap, out := ApplyVideoEffect(frames, effect, resultId, boomerangSkip);
    var note := encode(out.written);
    disk.Write(resultPath, note);
    if !sendOk {
      return Err(SendFailed);
    }
    var removed := disk.Remove(path);
    if !removed {
      return Err(FileNotFound(path));
    }
    removed := disk.Remove(resultPath);
    ctx.Finish();
    r := Ok(Sent(note, Upper(effect) + " готов!"));
  }
}
