/**
 * ffmpeg_processor.py's `VideoProcessor`: it locates the ffmpeg binary once,
 * encodes clips between temporary files and counts the successful encodes.
 */
module VideoProcessing {
  import opened Wrappers
  import opened Engine
  import opened Storage
  import opened TempFiles
  import opened Strs

  /** The places `_find_ffmpeg` tries, in order. */
  const Candidates: seq<string> := ["/usr/bin/ffmpeg", "/usr/local/bin/ffmpeg", "ffmpeg"]

  /** What `_find_ffmpeg` falls back to when no probe succeeds. */
  const FallbackPath: string := "ffmpeg"

  /** `[path, "-version"]` run with `check=True`: true when it exits 0 without raising. */
  type Probe = string -> bool

  /** One `process_video` encode: `-t <seconds> -vf <filter> -c:v libx264 -preset fast -crf 28 ...`. */
  datatype Job = Job(ffmpeg: string, input: seq<byte>, seconds: int, vf: string)

  type Encoder = Job -> Run

  /** `min(max_duration, 10)`: the encode never asks for more than 10 seconds. */
  function Duration(maxDuration: int): (d: int)
    ensures d <= 10
    ensures d == maxDuration || d == 10
    ensures maxDuration <= 10 ==> d == maxDuration
  {
    if maxDuration < 10 then maxDuration else 10
  }

  /** The first 100 characters of a string: Python's `s[:100]`. */
  function Prefix100(s: string): (p: string)
    ensures |p| <= 100
    ensures |s| <= 100 ==> p == s
    ensures |s| > 100 ==> |p| == 100
    ensures p == s[..|p|]
  {
    if |s| <= 100 then s else s[..100]
  }

  /** `stderr.decode() if stderr else "Unknown error"`, cut to 100 characters after the fixed prefix. */
  function FailureMessage(stderr: string): (msg: string)
    ensures StartsWith(msg, "FFmpeg processing failed: ")
    ensures |msg| <= |"FFmpeg processing failed: "| + 100
    ensures stderr == "" ==> msg == "FFmpeg processing failed: Unknown error"
    ensures stderr != "" && |stderr| <= 100 ==> msg == "FFmpeg processing failed: " + stderr
    ensures |stderr| > 100 ==> msg == "FFmpeg processing failed: " + stderr[..100]
  {
    var detail := if stderr == "" then "Unknown error" else stderr;
    "FFmpeg processing failed: " + Prefix100(detail)
  }

  const StickerScaleCrop: string := "scale=512:512:force_original_aspect_ratio=increase,crop=512:512"

  /** The `filters` dictionary of `process_video_for_sticker`. */
  function StickerFilters(): map<string, string> {
    map[
      "original" := StickerScaleCrop,
      "bw" := "hue=s=0," + StickerScaleCrop,
      "contrast" := "eq=contrast=1.5:brightness=0.1," + StickerScaleCrop,
      "vintage" := "curves=all='0/0 0.5/0.9 1/1'," + StickerScaleCrop
    ]
  }

  /** `filters.get(effect, filters["original"])`. */
  function StickerFilter(effect: string): (f: string)
    ensures EndsWith(f, StickerScaleCrop)
    ensures effect !in StickerFilters() ==> f == StickerScaleCrop
  {
    var table := StickerFilters();
    if effect in table then table[effect] else table["original"]
  }

  /** The sticker table has exactly four entries, so "bright" and "sepia" get the plain geometry here. */
  lemma StickerFilterKeys()
    ensures StickerFilters().Keys == {"original", "bw", "contrast", "vintage"}
    ensures StickerFilter("bright") == StickerScaleCrop && StickerFilter("sepia") == StickerScaleCrop
  {
  }

  /** The sticker path asks for 3 seconds, which the 10-second cap leaves alone. */
  lemma StickerDuration()
    ensures Duration(3) == 3
  {
  }

  class VideoProcessor {
    var processedCount: nat
    var ffmpegPath: string

    /** `__init__`: no encodes yet, and the binary found by probing the candidates. */
    constructor (probe: Probe)
      ensures processedCount == 0
      ensures ffmpegPath in Candidates
      ensures ffmpegPath != FallbackPath ==> probe(ffmpegPath)
      ensures (exists i :: 0 <= i < |Candidates| && probe(Candidates[i])) ==>
        exists i :: 0 <= i < |Candidates| && ffmpegPath == Candidates[i] && probe(ffmpegPath)
          && forall j :: 0 <= j < i ==> !probe(Candidates[j])
      ensures (forall i :: 0 <= i < |Candidates| ==> !probe(Candidates[i])) ==> ffmpegPath == FallbackPath
    {
      processedCount := 0;
      ffmpegPath := FallbackPath;
      new;
      ffmpegPath := FindFfmpeg(probe);
    }

    /**
     * `_find_ffmpeg`: the first candidate, in list order, whose probe
     * succeeds, else "ffmpeg".
     */
    static method FindFfmpeg(probe: Probe) returns (path: string)
      ensures path in Candidates
      ensures (exists i :: 0 <= i < |Candidates| && probe(Candidates[i])) ==>
        exists i :: 0 <= i < |Candidates| && path == Candidates[i] && probe(path)
          && forall j :: 0 <= j < i ==> !probe(Candidates[j])
      ensures (forall i :: 0 <= i < |Candidates| ==> !probe(Candidates[i])) ==> path == FallbackPath
    {
      for k := 0 to |Candidates|
        invariant forall j :: 0 <= j < k ==> !probe(Candidates[j])
      {
        if probe(Candidates[k]) {
          return Candidates[k];
        }
      }
      path := FallbackPath;
    }

    /**
     * `process_video`: one encode between fresh temporary files. The count
     * goes up by one exactly when the encode succeeds; a failure raises the
     * fixed message with at most 100 characters of ffmpeg's stderr.
     */
    method ProcessVideo(disk: Disk, data: seq<byte>, filter: string, maxDuration: int, encode: Encoder,
                        inPath: string, outPath: string)
      returns (r: Result<seq<byte>, string>)
      requires inPath != outPath && inPath !in disk.files && outPath !in disk.files
      modifies this, disk
      ensures var run := encode(Job(old(ffmpegPath), data, Duration(maxDuration), filter));
        && (r.Ok? <==> run.code == 0)
        && (r.Ok? ==> r.value == OutputFile(run))
        && (r.Err? ==> r.error == FailureMessage(run.stderr))
      ensures processedCount == old(processedCount) + (if r.Ok? then 1 else 0)
      ensures ffmpegPath == old(ffmpegPath)
      ensures disk.files == old(disk.files)
    {
      var run := encode(Job(ffmpegPath, data, Duration(maxDuration), filter));
      var result := RunWithTempFiles(disk, inPath, outPath, data, run);
      if run.code != 0 {
        var errorMsg := if run.stderr != "" then run.stderr else "Unknown error";
        return Err("FFmpeg processing failed: " + Prefix100(errorMsg));
      }
      processedCount := processedCount + 1;
      r := Ok(result);
    }

    /** `process_video_for_sticker`: the effect's filter and a 3-second cap. */
    method ProcessVideoForSticker(disk: Disk, data: seq<byte>, effect: string, encode: Encoder,
                                  inPath: string, outPath: string)
      returns (r: Result<seq<byte>, string>)
      requires inPath != outPath && inPath !in disk.files && outPath !in disk.files
      modifies this, disk
      ensures var run := encode(Job(old(ffmpegPath), data, 3, StickerFilter(effect)));
        && (r.Ok? <==> run.code == 0)
        && (r.Ok? ==> r.value == OutputFile(run))
        && (r.Err? ==> r.error == FailureMessage(run.stderr))
      ensures processedCount == old(processedCount) + (if r.Ok? then 1 else 0)
      ensures disk.files == old(disk.files)
    {
      r := ProcessVideo(disk, data, StickerFilter(effect), 3, encode, inPath, outPath);
    }

    /** `get_stats`: the count, unchanged. */
    method GetStats() returns (count: nat)
      ensures count == processedCount
    {
      count := processedCount;
    }
  }
}
