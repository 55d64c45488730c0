/**
 * The interactive phase of the script: choosing the download directory, the
 * number of worker threads and the quality, and reading the list of links.
 *
 * Each call to `input()` is modelled as taking the next string of `input`;
 * every prompt reports how many lines it consumed. When the lines run out
 * before a prompt is satisfied, Python's `input()` raises `EOFError`, which is
 * the `Raise(EOFError)` outcome here.
 */
module Prompts {
  import opened Text

  /** A value of the JSON configuration dictionary. */
  datatype Value = Str(s: string) | Int(n: int)

  /** The exceptions a prompt can let escape. */
  datatype Error = EOFError | TypeError | ValueError

  /** What a prompt does with the remaining input: answer after consuming
      `used` lines, end the process through `sys.exit(status)`, or raise. */
  datatype Step<T> = Ok(value: T, used: nat) | Exit(status: int) | Raise(error: Error)

  /** A prompt's step together with the configuration dictionary after it. */
  datatype Choice<T> = Choice(step: Step<T>, entries: map<string, Value>)

  const DownloadDirKey := "download_dir"
  const MaxWorkersKey := "max_workers"
  const DefaultWorkers := 2

  /** Answers (after strip and lower) that keep the stored download directory. */
  const KeepAnswers: set<string> := {"", "y", "yes"}
  /** Answers (after strip and lower) that ask for a choice to be remembered. */
  const YesAnswers: set<string> := {"y", "yes"}

  predicate Keeps(answer: string) { Lower(Strip(answer)) in KeepAnswers }
  predicate IsYes(answer: string) { Lower(Strip(answer)) in YesAnswers }

  /** The `cfg` dictionary, which the prompts update in place. */
  class Config {
    var entries: map<string, Value>

    constructor (entries: map<string, Value>)
      ensures this.entries == entries
    {
      this.entries := entries;
    }
  }

  // ---------------------------------------------------------------- download directory

  /** What `choose_download_dir` answers and leaves in `cfg`. */
  function DirChoice(m: map<string, Value>, input: seq<string>): (c: Choice<string>)
    ensures c.step.Ok? ==> 1 <= c.step.used <= |input|
    // The stored directory is reused, unchanged, on an empty, "y" or "yes" answer.
    ensures DownloadDirKey in m && |input| > 0 && Keeps(input[0]) ==>
      c.entries == m &&
      c.step == (if m[DownloadDirKey].Str? then Ok(m[DownloadDirKey].s, 1) else Raise(TypeError))
    // A new directory is the stripped answer to the path question, which is never empty.
    ensures c.step.Ok? && c.step.used >= 2 ==>
      c.step.value == Strip(input[c.step.used - 2]) && c.step.value != ""
    // An empty path ends the process with status 1, before anything is stored.
    ensures c.step.Exit? ==>
      c == Choice(Exit(1), m) &&
      var next := if DownloadDirKey in m then 1 else 0; next < |input| && Strip(input[next]) == ""
    // Only "download_dir" can change, and only to the new path on a "y"/"yes" answer.
    ensures c.entries != m ==>
      c.step.Ok? && c.step.used >= 2 && IsYes(input[c.step.used - 1]) &&
      c.entries == m[DownloadDirKey := Str(c.step.value)]
    ensures c.step.Ok? && c.step.used >= 2 && IsYes(input[c.step.used - 1]) ==>
      c.entries == m[DownloadDirKey := Str(c.step.value)]
    // Which line answers which question: with a stored directory the first line is the
    // keep question, and otherwise the path is read from the first line.
    ensures DownloadDirKey in m && |input| == 0 ==> c == Choice(Raise(EOFError), m)
    ensures var next := if DownloadDirKey in m then 1 else 0;
      var asksPath := DownloadDirKey !in m || (|input| > 0 && !Keeps(input[0]));
      && (asksPath && |input| <= next ==> c == Choice(Raise(EOFError), m))
      && (asksPath && next < |input| && Strip(input[next]) == "" ==> c == Choice(Exit(1), m))
      && (asksPath && next < |input| && Strip(input[next]) != "" ==>
            && (|input| == next + 1 ==> c == Choice(Raise(EOFError), m))
            && (|input| > next + 1 ==> c.step == Ok(Strip(input[next]), next + 2)))
  {
    if DownloadDirKey in m && |input| == 0 then Choice(Raise(EOFError), m)
    else if DownloadDirKey in m && Keeps(input[0]) then
      match m[DownloadDirKey]
      case Str(p) => Choice(Ok(p, 1), m)
      case Int(_) => Choice(Raise(TypeError), m)
    else
      var next := if DownloadDirKey in m then 1 else 0;
      if |input| <= next then Choice(Raise(EOFError), m)
      else
        var path := Strip(input[next]);
        if path == "" then Choice(Exit(1), m)
        else if |input| <= next + 1 then Choice(Raise(EOFError), m)
        else if IsYes(input[next + 1]) then Choice(Ok(path, next + 2), m[DownloadDirKey := Str(path)])
        else Choice(Ok(path, next + 2), m)
  }

  /** `choose_download_dir(cfg)`. */
  method ChooseDownloadDir(cfg: Config, input: seq<string>) returns (r: Step<string>)
    modifies cfg
    ensures Choice(r, cfg.entries) == DirChoice(old(cfg.entries), input)
  {
    var next := 0;
    if DownloadDirKey in cfg.entries {
      if |input| == 0 {
        return Raise(EOFError);
      }
      var use := Lower(Strip(input[0]));
      if use in KeepAnswers {
        match cfg.entries[DownloadDirKey]
        case Str(p) => return Ok(p, 1);
        case Int(_) => return Raise(TypeError);
      }
      next := 1;
    }
    if |input| <= next {
      return Raise(EOFError);
    }
    var path := Strip(input[next]);
    if path == "" {
      return Exit(1);
    }
    if |input| <= next + 1 {
      return Raise(EOFError);
    }
    var remember := Lower(Strip(input[next + 1]));
    if remember in YesAnswers {
      cfg.entries := cfg.entries[DownloadDirKey := Str(path)];
    }
    return Ok(path, next + 2);
  }

  // ---------------------------------------------------------------- worker count

  /** The stored worker count, or 2 when there is none; it is not validated. */
  function DefaultWorkerCount(m: map<string, Value>): (v: Value)
    ensures MaxWorkersKey in m ==> v == m[MaxWorkersKey]
    ensures MaxWorkersKey !in m ==> v == Int(2)
  {
    if MaxWorkersKey in m then m[MaxWorkersKey] else Int(DefaultWorkers)
  }

  /** `int(val) if val.isdigit() and int(val) > 0 else default` on the stripped answer. */
  function Workers(answer: string, default: Value): (w: Value)
    ensures w == default || (w.Int? && w.n > 0)
  {
    var val := Strip(answer);
    if IsDigits(val) && ParseDigits(val) > 0 then Int(ParseDigits(val)) else default
  }

  /** A positive number typed as its numeral, with any surrounding blanks and any
      leading zeros, is taken as it is. */
  lemma WorkersOfNumeral(pre: string, zeros: string, n: nat, post: string, default: Value)
    requires n > 0
    requires forall i :: 0 <= i < |pre| ==> IsSpace(pre[i])
    requires forall i :: 0 <= i < |zeros| ==> zeros[i] == '0'
    requires forall i :: 0 <= i < |post| ==> IsSpace(post[i])
    ensures Workers(pre + zeros + NatToString(n) + post, default) == Int(n)
  {
    var numeral := zeros + NatToString(n);
    assert pre + zeros + NatToString(n) + post == pre + numeral + post;
    assert numeral[0] == '0' || numeral[0] == NatToString(n)[0];
    assert numeral[|numeral| - 1] == NatToString(n)[|NatToString(n)| - 1];
    StripPadded(pre, numeral, post);
    ParseLeadingZeros(zeros, NatToString(n));
    ParseNatToString(n);
  }

  /** An empty answer, or one holding anything but digits (a sign, a letter, an inner
      blank), falls back to the default, whatever the default is. */
  lemma WorkersOfNonNumeral(answer: string, default: Value)
    requires !IsDigits(Strip(answer))
    ensures Workers(answer, default) == default
  {
  }

  /** A numeral made only of zeros, with any surrounding blanks, falls back to the default. */
  lemma WorkersOfZeros(pre: string, zeros: string, post: string, default: Value)
    requires zeros != []
    requires forall i :: 0 <= i < |pre| ==> IsSpace(pre[i])
    requires forall i :: 0 <= i < |zeros| ==> zeros[i] == '0'
    requires forall i :: 0 <= i < |post| ==> IsSpace(post[i])
    ensures Workers(pre + zeros + post, default) == default
  {
    StripPadded(pre, zeros, post);
  }

  /** What `choose_workers` answers and leaves in `cfg`. */
  function WorkersChoice(m: map<string, Value>, input: seq<string>): (c: Choice<Value>)
    ensures c.step.Ok? ==>
      c.step.used == 2 <= |input| && c.step.value == Workers(input[0], DefaultWorkerCount(m))
    ensures !c.step.Ok? ==> c == Choice(Raise(EOFError), m) && |input| < 2
    // Only "max_workers" can change, to the chosen count, and only on a "y"/"yes" answer.
    ensures c.entries != m ==>
      c.step.Ok? && IsYes(input[1]) && c.entries == m[MaxWorkersKey := c.step.value]
    ensures c.step.Ok? && IsYes(input[1]) ==> c.entries == m[MaxWorkersKey := c.step.value]
  {
    if |input| < 2 then Choice(Raise(EOFError), m)
    else
      var workers := Workers(input[0], DefaultWorkerCount(m));
      if IsYes(input[1]) then Choice(Ok(workers, 2), m[MaxWorkersKey := workers])
      else Choice(Ok(workers, 2), m)
  }

  /** `choose_workers(cfg)`. */
  method ChooseWorkers(cfg: Config, input: seq<string>) returns (r: Step<Value>)
    modifies cfg
    ensures Choice(r, cfg.entries) == WorkersChoice(old(cfg.entries), input)
  {
    var default := DefaultWorkerCount(cfg.entries);
    if |input| == 0 {
      return Raise(EOFError);
    }
    var workers := Workers(input[0], default);
    if |input| == 1 {
      return Raise(EOFError);
    }
    var remember := Lower(Strip(input[1]));
    if remember in YesAnswers {
      cfg.entries := cfg.entries[MaxWorkersKey := workers];
    }
    return Ok(workers, 2);
  }

  // ---------------------------------------------------------------- first matching line

  /** The index of the first element of `s` that satisfies `p`, if any. */
  function FirstIndex<T>(s: seq<T>, p: T -> bool): (t: Option<nat>)
    ensures t.Some? ==> t.value < |s| && p(s[t.value]) && forall j :: 0 <= j < t.value ==> !p(s[j])
    ensures t.None? ==> forall j :: 0 <= j < |s| ==> !p(s[j])
  {
    if s == [] then None
    else if p(s[0]) then Some(0)
    else match FirstIndex(s[1..], p)
      case None => None
      case Some(k) => Some(k + 1)
  }

  datatype Option<T> = None | Some(value: T)

  // ---------------------------------------------------------------- quality

  datatype Quality = Quality(name: string, format: string)

  /** `QUALITY_MAP`: menu key to display name and yt-dlp format selector. */
  const QualityMap: map<string, Quality> := map[
    "1" := Quality("原画质 / Source", "best"),
    "2" := Quality("1080p", "bestvideo[height<=1080]+bestaudio/best"),
    "3" := Quality("720p", "bestvideo[height<=720]+bestaudio/best"),
    "4" := Quality("480p", "bestvideo[height<=480]+bestaudio/best"),
    "5" := Quality("仅音频", "bestaudio")
  ]

  /** The menu offers keys "1" to "5", and each one selects a different format. */
  lemma QualityMenu()
    ensures QualityMap.Keys == {"1", "2", "3", "4", "5"}
    ensures forall a, b :: a in QualityMap && b in QualityMap && QualityMap[a].format == QualityMap[b].format ==> a == b
  {
  }

  predicate IsQualityKey(line: string) { Strip(line) in QualityMap }

  /** What `choose_quality` answers: the format of the first line that strips to a
      menu key; every other line is ignored. */
  function QualityStep(input: seq<string>): (r: Step<string>)
    ensures r.Ok? ==>
      1 <= r.used <= |input| && IsQualityKey(input[r.used - 1]) &&
      r.value == QualityMap[Strip(input[r.used - 1])].format &&
      forall j :: 0 <= j < r.used - 1 ==> !IsQualityKey(input[j])
    ensures !r.Ok? ==> r == Raise(EOFError) && forall j :: 0 <= j < |input| ==> !IsQualityKey(input[j])
  {
    match FirstIndex(input, IsQualityKey)
    case None => Raise(EOFError)
    case Some(i) => Ok(QualityMap[Strip(input[i])].format, i + 1)
  }

  /** `choose_quality()`. */
  method ChooseQuality(input: seq<string>) returns (r: Step<string>)
    ensures r == QualityStep(input)
  {
    var i := 0;
    while i < |input|
      invariant 0 <= i <= |input|
      invariant forall j :: 0 <= j < i ==> !IsQualityKey(input[j])
    {
      var c := Strip(input[i]);
      if c in QualityMap {
        return Ok(QualityMap[c].format, i + 1);
      }
      i := i + 1;
    }
    return Raise(EOFError);
  }

  // ---------------------------------------------------------------- links

  /** A line that ends the list: empty after strip, or "q" in either case. */
  predicate IsTerminator(line: string) {
    var l := Strip(line);
    l == "" || Lower(l) == "q"
  }

  /** A line that is kept: its stripped form starts with "http". */
  predicate IsLink(line: string) { StartsWith(Strip(line), "http") }

  /** The stripped links among `lines`, in order; other lines are dropped. */
  function Links(lines: seq<string>): (r: seq<string>)
    ensures |r| <= |lines|
    ensures forall k :: 0 <= k < |r| ==> StartsWith(r[k], "http") && IsStripped(r[k])
  {
    if lines == [] then []
    else
      var last := lines[|lines| - 1];
      Links(lines[..|lines| - 1]) + (if IsLink(last) then [Strip(last)] else [])
  }

  /** Filtering distributes over concatenation, so the links keep their input order. */
  lemma {:induction false} LinksAppend(a: seq<string>, b: seq<string>)
    ensures Links(a + b) == Links(a) + Links(b)
  {
    if b != [] {
      var b' := b[..|b| - 1];
      assert (a + b)[..|a + b| - 1] == a + b';
      LinksAppend(a, b');
    } else {
      assert a + b == a;
    }
  }

  /** A line that is not a link contributes nothing: it is skipped, not a terminator. */
  lemma LinksSkip(a: seq<string>, line: string, b: seq<string>)
    requires !IsLink(line)
    ensures Links(a + [line] + b) == Links(a + b)
  {
    LinksAppend(a + [line], b);
    LinksAppend(a, [line]);
    LinksAppend(a, b);
    assert Links([line]) == Links([]) + [];
  }

  /** Every kept string is the stripped form of some link line, and every link line is kept. */
  lemma {:induction false} LinksMembers(lines: seq<string>, x: string)
    ensures x in Links(lines) <==> exists i :: 0 <= i < |lines| && IsLink(lines[i]) && Strip(lines[i]) == x
  {
    if lines != [] {
      var init, last := lines[..|lines| - 1], lines[|lines| - 1];
      LinksMembers(init, x);
      assert Links(lines) == Links(init) + (if IsLink(last) then [Strip(last)] else []);
      if x in Links(lines) {
        if x in Links(init) {
          var i :| 0 <= i < |init| && IsLink(init[i]) && Strip(init[i]) == x;
          assert lines[i] == init[i];
        } else {
          assert IsLink(lines[|lines| - 1]) && Strip(lines[|lines| - 1]) == x;
        }
      } else {
        forall i | 0 <= i < |lines| && IsLink(lines[i])
          ensures Strip(lines[i]) != x
        {
          if i < |init| {
            assert init[i] == lines[i];
          }
        }
      }
    }
  }

  /** What `get_urls` answers: the links among the lines before the first
      terminator, which is consumed too. */
  function UrlsStep(input: seq<string>): (r: Step<seq<string>>)
    ensures r.Ok? ==>
      1 <= r.used <= |input| && IsTerminator(input[r.used - 1]) &&
      (forall j :: 0 <= j < r.used - 1 ==> !IsTerminator(input[j])) &&
      r.value == Links(input[..r.used - 1])
    ensures !r.Ok? ==> r == Raise(EOFError) && forall j :: 0 <= j < |input| ==> !IsTerminator(input[j])
  {
    match FirstIndex(input, IsTerminator)
    case None => Raise(EOFError)
    case Some(t) => Ok(Links(input[..t]), t + 1)
  }

  /** `get_urls()`. */
  method GetUrls(input: seq<string>) returns (r: Step<seq<string>>)
    ensures r == UrlsStep(input)
  {
    var urls: seq<string> := [];
    var i := 0;
    while i < |input|
      invariant 0 <= i <= |input|
      invariant forall j :: 0 <= j < i ==> !IsTerminator(input[j])
      invariant urls == Links(input[..i])
    {
      var line := Strip(input[i]);
      if line == "" || Lower(line) == "q" {
        return Ok(urls, i + 1);
      }
      assert input[..i + 1][..i] == input[..i];
      i := i + 1;
      if !StartsWith(line, "http") {
        continue;
      }
      urls := urls + [line];
    }
    return Raise(EOFError);
  }
}
