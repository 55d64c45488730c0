/**
 * `download(url, fmt, dl_dir)`: the yt-dlp command line for one task and the
 * loop that runs it up to `RETRIES` times.
 *
 * The subprocess is an oracle: `status(i)` is the exit status yt-dlp reports on
 * attempt `i` (numbered from 1). A zero status is success; any other makes
 * `subprocess.run(..., check=True)` raise `CalledProcessError`, which the loop
 * catches.
 */
module Downloader {

  const Retries := 3

  /** Path separator used when joining with `/` on a `Path`. */
  const Separator := '/'

  /** `directory / name` for a `Path`, with paths taken as opaque strings. */
  function JoinPath(directory: string, name: string): string {
    directory + [Separator] + name
  }

  /** yt-dlp's output template file name. */
  const OutputName := "%(uploader)s_%(upload_date)s_%(title)s.%(ext)s"

  /** `ARCHIVE_FILE`: `downloaded.txt` next to the script, in `appDir`. */
  function ArchiveFile(appDir: string): (path: string)
    ensures |path| == |appDir| + 15 && path[..|appDir|] == appDir && path[|appDir|..] == "/downloaded.txt"
  {
    JoinPath(appDir, "downloaded.txt")
  }

  /** The `cmd` list handed to `subprocess.run`. */
  function Command(appDir: string, url: string, fmt: string, dlDir: string): (argv: seq<string>)
    ensures |argv| == 18
    ensures argv[0] == "yt-dlp" && argv[1] == url && argv[2] == "-f" && argv[3] == fmt
    // every task names the same archive file, so yt-dlp skips what any run already fetched
    ensures argv[14] == "--download-archive" && argv[15] == ArchiveFile(appDir)
    ensures argv[16] == "-o" && argv[17] == JoinPath(dlDir, OutputName)
  {
    [ "yt-dlp",
      url,
      "-f", fmt,
      "--merge-output-format", "mp4",
      "--concurrent-fragments", "8",
      "--retries", "10",
      "--fragment-retries", "10",
      "--newline",
      "--progress",
      "--download-archive", ArchiveFile(appDir),
      "-o", JoinPath(dlDir, OutputName) ]
  }

  /** Two tasks run the same command line only when they agree on url, format and directory. */
  lemma CommandDeterminesTask(appDir: string, url1: string, fmt1: string, dir1: string,
                              url2: string, fmt2: string, dir2: string)
    requires Command(appDir, url1, fmt1, dir1) == Command(appDir, url2, fmt2, dir2)
    ensures url1 == url2 && fmt1 == fmt2 && dir1 == dir2
  {
    var p1, p2 := JoinPath(dir1, OutputName), JoinPath(dir2, OutputName);
    assert p1 == Command(appDir, url1, fmt1, dir1)[17] == p2;
    assert |dir1| == |dir2|;
    assert dir1 == p1[..|dir1|] == p2[..|dir2|] == dir2;
  }

  /** The terminal state of one task: success on attempt `attempts`, or given up. */
  datatype TaskOutcome = Succeeded(attempts: nat) | Skipped(attempts: nat)

  /** One `subprocess.run` call: its attempt number and the argv it ran. */
  datatype Invocation = Invocation(attempt: nat, argv: seq<string>)

  /** The loop from attempt `i` on. */
  function RetryFrom(status: nat -> int, i: nat): TaskOutcome
    requires 1 <= i <= Retries
    decreases Retries - i
  {
    if status(i) == 0 then Succeeded(i)
    else if i == Retries then Skipped(Retries)
    else RetryFrom(status, i + 1)
  }

  /** The outcome of `download`: it succeeds on the first attempt whose run exits 0,
      and after `Retries` failed runs it gives up without raising. */
  function RetryOutcome(status: nat -> int): (o: TaskOutcome)
    ensures 1 <= o.attempts <= Retries
    ensures o.Succeeded? <==> exists k :: 1 <= k <= Retries && status(k) == 0
    ensures o.Succeeded? ==> status(o.attempts) == 0 && forall j :: 1 <= j < o.attempts ==> status(j) != 0
    ensures o.Skipped? <==> o.attempts == Retries && forall j :: 1 <= j <= Retries ==> status(j) != 0
  {
    RetryFrom(status, 1)
  }

  /** One finished `download`: it ended in `RetryOutcome(status)` after one run of
      `argv` per attempt, numbered 1, 2, ... in order. */
  predicate DownloadRun(outcome: TaskOutcome, calls: seq<Invocation>, argv: seq<string>, status: nat -> int) {
    && outcome == RetryOutcome(status)
    && |calls| == outcome.attempts
    && forall j :: 0 <= j < |calls| ==> calls[j] == Invocation(j + 1, argv)
  }

  /** `download(url, fmt, dl_dir)`: the command is built once and every attempt
      runs that same command. */
  method Download(url: string, fmt: string, dlDir: string, appDir: string, status: nat -> int)
    returns (outcome: TaskOutcome, calls: seq<Invocation>)
    ensures DownloadRun(outcome, calls, Command(appDir, url, fmt, dlDir), status)
  {
    var cmd := Command(appDir, url, fmt, dlDir);
    calls := [];
    for i := 1 to Retries + 1
      invariant |calls| == i - 1
      invariant forall j :: 0 <= j < |calls| ==> calls[j] == Invocation(j + 1, cmd)
      invariant forall j :: 1 <= j < i ==> status(j) != 0
    {
      calls := calls + [Invocation(i, cmd)];
      if status(i) == 0 {
        return Succeeded(i), calls;
      }
    }
    return Skipped(Retries), calls;
  }
}
