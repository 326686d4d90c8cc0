/**
 * The file system as the bot sees it: paths mapped to byte contents. Temporary
 * files are written here and unlinked again; `Remove` reports whether the path
 * existed, since Python's `os.unlink` / `os.remove` raise when it does not.
 */
module Storage {
  import opened Wrappers

  class Disk {
    var files: map<string, seq<byte>>

    constructor ()
      ensures files == map[]
    {
      files := map[];
    }

    /** Create or overwrite `path`. */
    method Write(path: string, data: seq<byte>)
      modifies this
      ensures files == old(files)[path := data]
    {
      files := files[path := data];
    }

    /** Unlink `path`; `ok` is false exactly when it did not exist (the call raises). */
    method Remove(path: string) returns (ok: bool)
      modifies this
      ensures ok == (path in old(files))
      ensures files == old(files) - {path}
    {
      ok := path in files;
      files := files - {path};
    }
  }
}

/** One run of the external ffmpeg binary, seen only through what it leaves behind. */
module Engine {
  import opened Wrappers

  /**
   * The exit code, the decoded stderr text and, when ffmpeg wrote it, the
   * output file's bytes.
   */
  datatype Run = Run(code: int, stderr: string, output: Option<seq<byte>>)
}

/**
 * The pattern `convert_to_sticker`, `compress_sticker` and `process_video`
 * share: two `NamedTemporaryFile(delete=False)` files (created empty), the
 * input written to the first, one ffmpeg run that may write the second, the
 * second read back, and both unlinked in `finally`.
 */
module TempFiles {
  import opened Wrappers
  import opened Storage
  import opened Engine

  /** What the output file holds after the run: ffmpeg's output, or the empty file it never replaced. */
  function OutputFile(run: Run): seq<byte> {
    if run.output.Some? then run.output.value else []
  }

  /**
   * The two temporary files created empty, the input written, and the run's
   * output written over the output file when ffmpeg produced one.
   */
  method Stage(disk: Disk, inPath: string, outPath: string, data: seq<byte>, run: Run)
    requires inPath != outPath
    modifies disk
    ensures disk.files == old(disk.files)[inPath := data][outPath := OutputFile(run)]
  {
    disk.Write(inPath, []);
    disk.Write(outPath, []);
    disk.Write(inPath, data);
    assert disk.files == old(disk.files)[inPath := data][outPath := []];
    if run.output.Some? {
      disk.Write(outPath, run.output.value);
    }
  }

  /** The `finally` clean-up: unlink the input, which is there, then the output. */
  method Cleanup(disk: Disk, inPath: string, outPath: string)
    requires inPath in disk.files
    modifies disk
    ensures disk.files == old(disk.files) - {inPath, outPath}
  {
    var removed := disk.Remove(inPath);
    removed := disk.Remove(outPath);
  }

  /**
   * Runs `run` between fresh temporary files and returns the output file's
   * contents; afterwards the disk is as it was before.
   */
  method RunWithTempFiles(disk: Disk, inPath: string, outPath: string, data: seq<byte>, run: Run)
    returns (contents: seq<byte>)
    requires inPath != outPath && inPath !in disk.files && outPath !in disk.files
    modifies disk
    ensures contents == OutputFile(run)
    ensures disk.files == old(disk.files)
  {
    Stage(disk, inPath, outPath, data, run);
    contents := disk.files[outPath];
    Cleanup(disk, inPath, outPath);
  }
}
