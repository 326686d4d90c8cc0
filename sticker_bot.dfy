/**
 * bot.py: the effect table and its ffmpeg filters, the `effect:<id>` callback,
 * the size-capped download, the temporary-file conversions and `handle_video`
 * with its per-user busy guard.
 */
module StickerBot {
  import opened Wrappers
  import opened Engine
  import opened Strs
  import opened Storage
  import opened TempFiles
  import opened FilterChain
  import opened Markup

  /** One entry of `EFFECTS["list"]`. */
  datatype Effect = Effect(id: string, name: string, emoji: string)

  function Effects(): (list: seq<Effect>)
    ensures |list| == 6
  {
    [ Effect("original", "Оригинал", "⚪"),
      Effect("bw", "Черно-белый", "⚫"),
      Effect("contrast", "Контраст", "🔆"),
      Effect("bright", "Яркий", "✨"),
      Effect("vintage", "Винтаж", "🟤"),
      Effect("sepia", "Сепия", "🟫") ]
  }

  /** `next((e for e in EFFECTS["list"] if e["id"] == effect_id), EFFECTS["list"][0])`. */
  function FindEffect(effectId: string): (e: Effect)
    ensures e in Effects()
    ensures (exists i :: 0 <= i < |Effects()| && Effects()[i].id == effectId) ==> e.id == effectId
    ensures (forall i :: 0 <= i < |Effects()| ==> Effects()[i].id != effectId) ==> e == Effects()[0]
  {
    FirstWithId(Effects(), effectId, Effects()[0])
  }

  /** The first entry of `list` with the given id, else `fallback`. */
  function FirstWithId(list: seq<Effect>, effectId: string, fallback: Effect): (e: Effect)
    ensures e in list || e == fallback
    ensures (exists i :: 0 <= i < |list| && list[i].id == effectId) ==>
      exists i :: 0 <= i < |list| && e == list[i] && e.id == effectId
        && forall j :: 0 <= j < i ==> list[j].id != effectId
    ensures (forall i :: 0 <= i < |list| ==> list[i].id != effectId) ==> e == fallback
  {
    if list == [] then fallback
    else if list[0].id == effectId then list[0]
    else FirstWithId(list[1..], effectId, fallback)
  }

  /** The geometry every bot.py filter ends with: fill 512x512, then crop to it. */
  const ScaleCrop: string := "scale=512:512:force_original_aspect_ratio=increase,crop=512:512"

  /** The stage each effect puts in front of `ScaleCrop`; "original" has none. */
  function EffectStage(effectId: string): Option<string> {
    if effectId == "bw" then Some("hue=s=0")
    else if effectId == "contrast" then Some("eq=contrast=1.3:brightness=0.1")
    else if effectId == "bright" then Some("eq=contrast=1.1:brightness=0.2:saturation=1.2")
    else if effectId == "vintage" then Some("curves=all='0/0 0.5/0.9 1/1',colorbalance=rs=-0.1:gs=-0.1")
    else if effectId == "sepia" then Some("colorchannelmixer=.393:.769:.189:0:.349:.686:.168:0:.272:.534:.131")
    else None
  }

  /** The `filters` dictionary of `get_filter_by_effect`. */
  function FilterTable(): map<string, string> {
    map[
      "original" := ScaleCrop,
      "bw" := EffectStage("bw").value + "," + ScaleCrop,
      "contrast" := EffectStage("contrast").value + "," + ScaleCrop,
      "bright" := EffectStage("bright").value + "," + ScaleCrop,
      "vintage" := EffectStage("vintage").value + "," + ScaleCrop,
      "sepia" := EffectStage("sepia").value + "," + ScaleCrop
    ]
  }

  /** `filters.get(effect_id, filters["original"])`. */
  function GetFilterByEffect(effectId: string): (f: string)
    ensures EndsWith(f, ScaleCrop)
    ensures effectId !in FilterTable() ==> f == ScaleCrop
  {
    var table := FilterTable();
    if effectId in table then table[effectId] else table["original"]
  }

  /**
   * The filter is the effect's own stage, then a comma, then `ScaleCrop`;
   * an id without a stage (unknown, or "original") gets `ScaleCrop` alone.
   */
  lemma FilterIsStageThenGeometry(effectId: string)
    ensures EffectStage(effectId).Some? ==> GetFilterByEffect(effectId) == EffectStage(effectId).value + "," + ScaleCrop
    ensures EffectStage(effectId).None? ==> GetFilterByEffect(effectId) == ScaleCrop
  {
  }

  /** Every effect offered on the keyboard has its own filter entry. */
  lemma EveryEffectHasFilter()
    ensures forall i :: 0 <= i < |Effects()| ==> Effects()[i].id in FilterTable()
    ensures forall id :: id in FilterTable() ==> exists i :: 0 <= i < |Effects()| && Effects()[i].id == id
  {
    var e := Effects();
    assert e[0].id == "original" && e[1].id == "bw" && e[2].id == "contrast";
    assert e[3].id == "bright" && e[4].id == "vintage" && e[5].id == "sepia";
  }

  /** The button of one effect: its emoji and name, and `effect:<id>`. */
  function EffectButton(e: Effect): Button {
    Button(e.emoji + " " + e.name, "effect:" + e.id)
  }

  /** `effects_command`: one row per effect, in list order. */
  method EffectsKeyboard() returns (keyboard: seq<seq<Button>>)
    ensures |keyboard| == |Effects()|
    ensures forall i :: 0 <= i < |keyboard| ==> keyboard[i] == [EffectButton(Effects()[i])]
  {
    keyboard := [];
    var list := Effects();
    for k := 0 to |list|
      invariant |keyboard| == k
      invariant forall i :: 0 <= i < k ==> keyboard[i] == [EffectButton(list[i])]
    {
      keyboard := keyboard + [[EffectButton(list[k])]];
    }
  }

  /** `query.data.split(":")[1]`; None where Python raises IndexError (no ':' at all). */
  function EffectIdOf(data: string): (id: Option<string>)
    ensures id.Some? <==> ':' in data
  {
    var pieces := Split(data, ':');
    SplitsInTwoExactlyWithSeparator(data, ':');
    if |pieces| >= 2 then Some(pieces[1]) else None
  }

  /**
   * Every data string the handler's pattern `^effect:` admits has an id, and
   * the callback of a button carries its effect's id back unchanged.
   */
  lemma {:induction false} CallbackRoundTrip(id: string, rest: string)
    requires ':' !in id
    ensures EffectIdOf("effect:" + id) == Some(id)
    ensures EffectIdOf("effect:" + id + ":" + rest) == Some(id)
  {
    var prefix := "effect";
    assert ':' !in prefix by {
      assert prefix == ['e', 'f', 'f', 'e', 'c', 't'];
    }
    assert "effect:" + id == prefix + [':'] + id;
    SplitAfterPrefix(prefix, ':', id);
    SplitWithoutSeparator(id, ':');
    assert "effect:" + id + ":" + rest == prefix + [':'] + (id + [':'] + rest);
    SplitAfterPrefix(prefix, ':', id + [':'] + rest);
    SplitAfterPrefix(id, ':', rest);
  }

  /** The six keyboard buttons all parse back to their effect's id. */
  lemma KeyboardCallbacksParse()
    ensures forall i :: 0 <= i < |Effects()| ==> EffectIdOf(EffectButton(Effects()[i]).data) == Some(Effects()[i].id)
  {
    forall i | 0 <= i < |Effects()|
      ensures EffectIdOf(EffectButton(Effects()[i]).data) == Some(Effects()[i].id)
    {
      var e := Effects();
      assert ':' !in e[i].id by {
        assert e[0].id == "original" && e[1].id == "bw" && e[2].id == "contrast";
        assert e[3].id == "bright" && e[4].id == "vintage" && e[5].id == "sepia";
      }
      CallbackRoundTrip(e[i].id, "");
    }
  }

  /** Why `download_video` raised. */
  datatype DownloadError = BadStatus(status: int) | TooBig(limitMb: nat)

  /** All chunks concatenated in order: `bytes(video_data)` after the loop. */
  function Flatten(chunks: seq<seq<byte>>): seq<byte> {
    if chunks == [] then [] else Flatten(chunks[..|chunks| - 1]) + chunks[|chunks| - 1]
  }

  /** Reading more chunks never makes the data shorter. */
  lemma {:induction false} FlattenGrows(chunks: seq<seq<byte>>, j: nat, k: nat)
    requires j <= k <= |chunks|
    ensures |Flatten(chunks[..j])| <= |Flatten(chunks[..k])|
    decreases k - j
  {
    if j < k {
      FlattenGrows(chunks, j, k - 1);
      assert chunks[..k][..k - 1] == chunks[..k - 1];
    }
  }

  const MiB: nat := 1024 * 1024

  /**
   * `download_video` on a response with this status and these chunks: it
   * raises on a non-200 status, and as soon as the bytes read so far exceed
   * `max_size_mb` MiB; `consumed` is the number of chunks read.
   */
  method DownloadVideo(status: int, chunks: seq<seq<byte>>, maxSizeMb: nat)
    returns (r: Result<seq<byte>, DownloadError>, consumed: nat)
    ensures status != 200 ==> r == Err(BadStatus(status)) && consumed == 0
    ensures status == 200 ==> consumed <= |chunks|
    ensures status == 200 && r.Err? ==> r == Err(TooBig(maxSizeMb))
    ensures r.Ok? ==> r.value == Flatten(chunks) && consumed == |chunks|
    ensures r == Err(TooBig(maxSizeMb)) ==>
      && |Flatten(chunks[..consumed])| > maxSizeMb * MiB
      && forall j :: 0 <= j < consumed ==> |Flatten(chunks[..j])| <= maxSizeMb * MiB
    ensures status == 200 ==> (r.Ok? <==> |Flatten(chunks)| <= maxSizeMb * MiB)
  {
    consumed := 0;
    if status != 200 {
      return Err(BadStatus(status)), 0;
    }
    var maxBytes := maxSizeMb * MiB;
    var videoData: seq<byte> := [];
    while consumed < |chunks|
      invariant consumed <= |chunks|
      invariant videoData == Flatten(chunks[..consumed])
      invariant |videoData| <= maxBytes
      invariant forall j :: 0 <= j <= consumed ==> |Flatten(chunks[..j])| <= maxBytes
    {
      assert chunks[..consumed + 1][..consumed] == chunks[..consumed];
      videoData := videoData + chunks[consumed];
      consumed := consumed + 1;
      if |videoData| > maxBytes {
        FlattenGrows(chunks, consumed, |chunks|);
        assert chunks[..|chunks|] == chunks;
        return Err(TooBig(maxSizeMb)), consumed;
      }
    }
    assert chunks[..consumed] == chunks;
    r := Ok(videoData);
  }

  /** The two ffmpeg invocations of bot.py. */
  datatype Command =
    /** `-t 3 -vf <filter> -c:v libvpx-vp9 -b:v 500k -crf 30 -an -deadline realtime -cpu-used 8 -y`. */
    | ToSticker(input: seq<byte>, seconds: nat, vf: string, bitrate: string, crf: nat)
    /** `-b:v 300k -crf 35 -an -y`. */
    | Recompress(input: seq<byte>, bitrate: string, crf: nat)

  type Ffmpeg = Command -> Run

  function StickerCommand(data: seq<byte>, effectId: string): Command {
    ToSticker(data, 3, GetFilterByEffect(effectId), "500k", 30)
  }

  function RecompressCommand(data: seq<byte>): Command {
    Recompress(data, "300k", 35)
  }

  /** What `convert_to_sticker` returns or raises. */
  function Conversion(data: seq<byte>, effectId: string, ffmpeg: Ffmpeg): Result<seq<byte>, string> {
    var run := ffmpeg(StickerCommand(data, effectId));
    if run.code != 0 then Err("Ошибка обработки видео") else Ok(OutputFile(run))
  }

  /** `compress_sticker`: the exit code is not looked at, the output file is read whatever it holds. */
  function Compression(data: seq<byte>, ffmpeg: Ffmpeg): seq<byte> {
    OutputFile(ffmpeg(RecompressCommand(data)))
  }

  /** A recompression that fails without writing its output yields an empty sticker, not the original. */
  lemma FailedCompressionIsEmpty(data: seq<byte>, ffmpeg: Ffmpeg)
    requires ffmpeg(RecompressCommand(data)).output.None?
    ensures Compression(data, ffmpeg) == []
  {
  }

  /** A successful conversion returns exactly what ffmpeg wrote; a failed one raises whatever it wrote. */
  lemma ConversionChecksExitCode(data: seq<byte>, effectId: string, ffmpeg: Ffmpeg)
    ensures Conversion(data, effectId, ffmpeg).Ok? <==> ffmpeg(StickerCommand(data, effectId)).code == 0
    ensures ffmpeg(StickerCommand(data, effectId)).output.Some? && Conversion(data, effectId, ffmpeg).Ok?
      ==> Conversion(data, effectId, ffmpeg).value == ffmpeg(StickerCommand(data, effectId)).output.value
  {
  }

  /** `convert_to_sticker` between two fresh temporary files. */
  method ConvertToSticker(disk: Disk, data: seq<byte>, effectId: string, ffmpeg: Ffmpeg, inPath: string, outPath: string)
    returns (r: Result<seq<byte>, string>)
    requires inPath != outPath && inPath !in disk.files && outPath !in disk.files
    modifies disk
    ensures r == Conversion(data, effectId, ffmpeg)
    ensures disk.files == old(disk.files)
  {
    var filter := GetFilterByEffect(effectId);
    var run := ffmpeg(ToSticker(data, 3, filter, "500k", 30));
    var written := RunWithTempFiles(disk, inPath, outPath, data, run);
    if run.code != 0 {
      return Err("Ошибка обработки видео");
    }
    r := Ok(written);
  }

  /** `compress_sticker` between two fresh temporary files. */
  method CompressSticker(disk: Disk, data: seq<byte>, ffmpeg: Ffmpeg, inPath: string, outPath: string)
    returns (compressed: seq<byte>)
    requires inPath != outPath && inPath !in disk.files && outPath !in disk.files
    modifies disk
    ensures compressed == Compression(data, ffmpeg)
    ensures disk.files == old(disk.files)
  {
    var run := ffmpeg(Recompress(data, "300k", 35));
    compressed := RunWithTempFiles(disk, inPath, outPath, data, run);
  }

  /** The largest sticker sent without the extra compression pass. */
  const NoteLimit: nat := 256 * 1024

  /** The upload limit: `file_size / (1024 * 1024) > 20`. */
  const UploadLimitMb: nat := 20

  /** How `handle_video` ends, by what the user receives. */
  datatype VideoOutcome =
    | Busy
    | TooLarge
    | Failed
    | SentNote(sticker: seq<byte>)
    | SentVideo(sticker: seq<byte>, caption: string)

  /**
   * Everything `handle_video` depends on besides the user's state: the
   * reported file size (None when Telegram omits it), the download response,
   * ffmpeg, and whether each of the two send calls goes through.
   */
  datatype Upload = Upload(fileSize: Option<nat>, status: int, chunks: seq<seq<byte>>, noteOk: bool, videoOk: bool)

  /** The sticker bytes after conversion and the single optional compression pass. */
  function StickerBytes(data: seq<byte>, effectId: string, ffmpeg: Ffmpeg): Result<seq<byte>, string> {
    var converted := Conversion(data, effectId, ffmpeg);
    if converted.Err? then converted
    else if |converted.value| > NoteLimit then Ok(Compression(converted.value, ffmpeg))
    else converted
  }

  /** Reference definition of `handle_video` for a user who is not already busy. */
  function ProcessOutcome(effectId: string, u: Upload, ffmpeg: Ffmpeg): VideoOutcome {
    if u.fileSize.None? then Failed
    else if u.fileSize.value > UploadLimitMb * MiB then TooLarge
    else if u.status != 200 || |Flatten(u.chunks)| > UploadLimitMb * MiB then Failed
    else
      var sticker := StickerBytes(Flatten(u.chunks), effectId, ffmpeg);
      if sticker.Err? then Failed
      else if u.noteOk then SentNote(sticker.value)
      else if u.videoOk then SentVideo(sticker.value, "🎭 Стикер готов! Эффект: " + FindEffect(effectId).name)
      else Failed
  }

  /** Over the limit means exactly one compression pass, and its result is sent unchecked. */
  lemma OneCompressionPass(data: seq<byte>, effectId: string, ffmpeg: Ffmpeg)
    requires Conversion(data, effectId, ffmpeg).Ok?
    ensures var c := Conversion(data, effectId, ffmpeg).value;
      && (|c| > NoteLimit ==> StickerBytes(data, effectId, ffmpeg) == Ok(Compression(c, ffmpeg)))
      && (|c| <= NoteLimit ==> StickerBytes(data, effectId, ffmpeg) == Ok(c))
  {
  }

  /** The fresh temporary paths one `handle_video` call uses: two per conversion. */
  datatype TempPaths = TempPaths(convertIn: string, convertOut: string, compressIn: string, compressOut: string)

  predicate Fresh(t: TempPaths, files: map<string, seq<byte>>) {
    && t.convertIn != t.convertOut && t.compressIn != t.compressOut
    && t.convertIn !in files && t.convertOut !in files
    && t.compressIn !in files && t.compressOut !in files
  }

  /**
   * The conversion and, for a result over the note limit, the one
   * compression pass of `handle_video`; every temporary file is removed.
   */
  method MakeSticker(disk: Disk, data: seq<byte>, effectId: string, ffmpeg: Ffmpeg, temps: TempPaths)
    returns (r: Result<seq<byte>, string>)
    requires Fresh(temps, disk.files)
    modifies disk
    ensures r == StickerBytes(data, effectId, ffmpeg)
    ensures disk.files == old(disk.files)
  {
    r := ConvertToSticker(disk, data, effectId, ffmpeg, temps.convertIn, temps.convertOut);
    if r.Ok? && |r.value| > NoteLimit {
      var compressed := CompressSticker(disk, r.value, ffmpeg, temps.compressIn, temps.compressOut);
      r := Ok(compressed);
    }
  }

  /** The bot's state: the busy set and each user's chosen effect (`context.user_data["effect"]`). */
  class Bot {
    var processingUsers: set<UserId>
    var chosenEffect: map<UserId, string>

    constructor ()
      ensures processingUsers == {} && chosenEffect == map[]
    {
      processingUsers, chosenEffect := {}, map[];
    }

    /**
     * `effect_callback`: the id is stored verbatim, known or not; the name
     * shown falls back to the first effect. None where the split raises.
     */
    method EffectCallback(uid: UserId, data: string) returns (shown: Option<string>)
      modifies this
      ensures EffectIdOf(data).Some? ==> chosenEffect == old(chosenEffect)[uid := EffectIdOf(data).value]
      ensures EffectIdOf(data).Some? ==> shown == Some(FindEffect(EffectIdOf(data).value).name)
      ensures EffectIdOf(data).None? ==> chosenEffect == old(chosenEffect) && shown == None
      ensures processingUsers == old(processingUsers)
    {
      var effectId := EffectIdOf(data);
      if effectId.None? {
        return None;
      }
      var effect := FindEffect(effectId.value);
      chosenEffect := chosenEffect[uid := effectId.value];
      shown := Some(effect.name);
    }

    /** The effect `handle_video` uses: `context.user_data.get("effect", "original")`. */
    function EffectOf(uid: UserId): string
      reads this
    {
      if uid in chosenEffect then chosenEffect[uid] else "original"
    }

    /**
     * `handle_video`: the busy guard, then the body, after which `finally`
     * discards the user again; the busy set is the same before and after.
     */
    method HandleVideo(disk: Disk, uid: UserId, u: Upload, ffmpeg: Ffmpeg, temps: TempPaths)
      returns (outcome: VideoOutcome)
      requires Fresh(temps, disk.files)
      modifies this, disk
      ensures outcome == Busy <==> uid in old(processingUsers)
      ensures outcome != Busy ==> outcome == ProcessOutcome(old(EffectOf(uid)), u, ffmpeg)
      ensures processingUsers == old(processingUsers)
      ensures chosenEffect == old(chosenEffect)
      ensures disk.files == old(disk.files)
    {
      if uid in processingUsers {
        return Busy;
      }
      processingUsers := processingUsers + {uid};
      outcome := Process(disk, uid, u, ffmpeg, temps);
      processingUsers := processingUsers - {uid};
    }

    /** The `try` body of `handle_video`; it can only run while the user is marked busy. */
    method Process(disk: Disk, uid: UserId, u: Upload, ffmpeg: Ffmpeg, temps: TempPaths)
      returns (outcome: VideoOutcome)
      requires uid in processingUsers
      requires Fresh(temps, disk.files)
      modifies disk
      ensures outcome == ProcessOutcome(EffectOf(uid), u, ffmpeg)
      ensures disk.files == old(disk.files)
    {
      if u.fileSize.None? {
        return Failed;
      }
      if u.fileSize.value > UploadLimitMb * MiB {
        return TooLarge;
      }
      var effectId := EffectOf(uid);
      var effect := FindEffect(effectId);
      var downloaded, _ := DownloadVideo(u.status, u.chunks, UploadLimitMb);
      if downloaded.Err? {
        return Failed;
      }
      var converted := MakeSticker(disk, downloaded.value, effectId, ffmpeg, temps);
      if converted.Err? {
        return Failed;
      }
      var sticker := converted.value;
      if u.noteOk {
        return SentNote(sticker);
      }
      if u.videoOk {
        return SentVideo(sticker, "🎭 Стикер готов! Эффект: " + effect.name);
      }
      outcome := Failed;
    }
  }
}
