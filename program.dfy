/**
 * `main()`: the prompts in order, the early return on an empty link list, the
 * saved configuration, one download per link and the completion notice.
 *
 * The thread pool is modelled as running the submitted downloads one after
 * another in submission order; the notification goes out after all of them
 * have finished, as the `with` block guarantees.
 */
module Program {
  import opened Text
  import opened Prompts
  import opened Downloader

  /** How `main()` ends: by returning, through `sys.exit`, or with an exception. */
  datatype Status = Returned | Exited(code: int) | Raised(error: Error)

  /** The effects of `main()` that the model observes, in order. */
  datatype Event =
    | ConfigSaved(entries: map<string, Value>)
    | Downloaded(url: string, calls: seq<Invocation>, outcome: TaskOutcome)
    | Notified(title: string, message: string)

  /** The answers of the interactive phase, or the point where it stopped. */
  datatype Answers =
    | Answered(dir: string, workers: Value, fmt: string, urls: seq<string>, entries: map<string, Value>)
    | Stopped(status: Status, entries: map<string, Value>)

  function Halt<T>(s: Step<T>): Status
    requires !s.Ok?
  {
    match s
    case Exit(code) => Exited(code)
    case Raise(e) => Raised(e)
  }

  /** The four prompts of `main()`, each reading where the previous one stopped. */
  function Interview(m: map<string, Value>, input: seq<string>): (a: Answers)
    // only the two remembered settings can change
    ensures forall k :: k in m && k != DownloadDirKey && k != MaxWorkersKey ==> k in a.entries && a.entries[k] == m[k]
    ensures forall k :: k in a.entries ==> k in m || k == DownloadDirKey || k == MaxWorkersKey
    ensures a.Answered? ==> forall k :: 0 <= k < |a.urls| ==> StartsWith(a.urls[k], "http")
  {
    var d := DirChoice(m, input);
    if !d.step.Ok? then Stopped(Halt(d.step), d.entries)
    else
      var afterDir := input[d.step.used..];
      var w := WorkersChoice(d.entries, afterDir);
      if !w.step.Ok? then Stopped(Halt(w.step), w.entries)
      else
        var afterWorkers := afterDir[w.step.used..];
        var q := QualityStep(afterWorkers);
        if !q.Ok? then Stopped(Halt(q), w.entries)
        else
          var u := UrlsStep(afterWorkers[q.used..]);
          if !u.Ok? then Stopped(Halt(u), w.entries)
          else Answered(d.step.value, w.step.value, q.value, u.value, w.entries)
  }

  const Title := "Twitch 下载完成"

  const MessageHead := "完成 "
  const MessageMiddle := " 个任务\n保存路径：\n"

  /** The notification text: the number of tasks and the download directory. */
  function Message(tasks: nat, dir: string): (r: string)
    ensures var h, n := |MessageHead|, NatToString(tasks);
      && |r| == h + |n| + |MessageMiddle| + |dir|
      && r[..h] == MessageHead && r[h..h + |n|] == n && r[|r| - |dir|..] == dir
  {
    MessageHead + NatToString(tasks) + MessageMiddle + dir
  }

  /** In a message the numeral is followed by a blank, and every character of it is a digit. */
  lemma MessageNumeralAt(tasks: nat, dir: string, i: int)
    ensures var m, s := Message(tasks, dir), NatToString(tasks);
      |MessageHead| + |s| < |m| && m[|MessageHead| + |s|] == ' ' &&
      (0 <= i < |s| ==> IsDigit(m[|MessageHead| + i]))
  {
    var s := NatToString(tasks);
    var m := Message(tasks, dir);
    assert m == MessageHead + s + (MessageMiddle + dir);
  }

  /** The notification determines the task count and directory it reports. */
  lemma MessageReportsTasks(n1: nat, dir1: string, n2: nat, dir2: string)
    requires Message(n1, dir1) == Message(n2, dir2)
    ensures n1 == n2 && dir1 == dir2
  {
    var s1, s2 := NatToString(n1), NatToString(n2);
    if |s1| < |s2| {
      MessageNumeralAt(n1, dir1, 0);
      MessageNumeralAt(n2, dir2, |s1|);
      assert false;
    } else if |s2| < |s1| {
      MessageNumeralAt(n2, dir2, 0);
      MessageNumeralAt(n1, dir1, |s2|);
      assert false;
    }
    var m1, m2 := Message(n1, dir1), Message(n2, dir2);
    var h := |MessageHead|;
    assert m1 == MessageHead + s1 + MessageMiddle + dir1;
    assert m2 == MessageHead + s2 + MessageMiddle + dir2;
    assert s1 == m1[h..h + |s1|] == m2[h..h + |s2|] == s2;
    NatToStringInjective(n1, n2);
    assert dir1 == m1[h + |s1| + |MessageMiddle|..] == m2[h + |s2| + |MessageMiddle|..] == dir2;
  }

  /** Task `k` of the batch was submitted once, for `url`, ran `download` to its end. */
  predicate TaskEvent(e: Event, k: nat, url: string, fmt: string, dlDir: string, appDir: string,
                      status: nat -> nat -> int)
  {
    && e.Downloaded?
    && e.url == url
    && DownloadRun(e.outcome, e.calls, Command(appDir, url, fmt, dlDir), status(k))
  }

  /** One finished download per link, in submission order. */
  predicate BatchEvents(events: seq<Event>, urls: seq<string>, fmt: string, dlDir: string, appDir: string,
                        status: nat -> nat -> int)
  {
    |events| == |urls| &&
    forall k :: 0 <= k < |urls| ==> TaskEvent(events[k], k, urls[k], fmt, dlDir, appDir, status)
  }

  /** The `with ThreadPoolExecutor(...)` block: every link is submitted to `download`
      exactly once and the block ends when all of them have finished. `status(k)` is
      the exit-status oracle of task `k`. */
  method RunBatch(urls: seq<string>, fmt: string, dlDir: string, appDir: string, status: nat -> nat -> int)
    returns (events: seq<Event>)
    ensures BatchEvents(events, urls, fmt, dlDir, appDir, status)
  {
    events := [];
    for k := 0 to |urls|
      invariant BatchEvents(events, urls[..k], fmt, dlDir, appDir, status)
    {
      var outcome, calls := Download(urls[k], fmt, dlDir, appDir, status(k));
      events := events + [Downloaded(urls[k], calls, outcome)];
    }
    assert urls[..|urls|] == urls;
  }

  /** `ThreadPoolExecutor` refuses a worker count that is not a positive integer. */
  predicate ValidPoolSize(w: Value) { w.Int? && w.n > 0 }

  /** `max_workers <= 0` raises `ValueError` for a number and `TypeError` for a string. */
  function PoolError(w: Value): (e: Error)
    ensures e == ValueError <==> w.Int?
    ensures e == TypeError <==> w.Str?
  {
    if w.Int? then ValueError else TypeError
  }

  /** The pool can only refuse a count that came unvalidated from a stored `max_workers`:
      a typed count is positive and the built-in default is 2. */
  lemma PoolFailsOnlyOnStoredCount(m: map<string, Value>, answer: string)
    requires !ValidPoolSize(Workers(answer, DefaultWorkerCount(m)))
    ensures MaxWorkersKey in m && !ValidPoolSize(m[MaxWorkersKey])
    ensures Workers(answer, DefaultWorkerCount(m)) == m[MaxWorkersKey]
  {
  }

  /** `main()`, with `cfg` as `load_config()` returned it. */
  method RunMain(cfg: Config, input: seq<string>, appDir: string, status: nat -> nat -> int)
    returns (r: Status, events: seq<Event>)
    modifies cfg
    ensures var a := Interview(old(cfg.entries), input);
      && cfg.entries == a.entries
      // a prompt that exits or raises ends main before any effect
      && (a.Stopped? ==> r == a.status && events == [])
      // no links: return before saving, downloading or notifying
      && (a.Answered? && a.urls == [] ==> r == Returned && events == [])
      // otherwise the configuration is saved first
      && (a.Answered? && a.urls != [] ==> |events| > 0 && events[0] == ConfigSaved(a.entries))
      && (a.Answered? && a.urls != [] && !ValidPoolSize(a.workers) ==>
            r == Raised(PoolError(a.workers)) && events == [ConfigSaved(a.entries)])
      // then one download per link, then one notification reporting len(urls)
      && (a.Answered? && a.urls != [] && ValidPoolSize(a.workers) ==>
            && r == Returned
            && |events| == |a.urls| + 2
            && BatchEvents(events[1..|events| - 1], a.urls, a.fmt, a.dir, appDir, status)
            && events[|events| - 1] == Notified(Title, Message(|a.urls|, a.dir)))
  {
    var dir := ChooseDownloadDir(cfg, input);
    if !dir.Ok? {
      return Halt(dir), [];
    }
    var rest := input[dir.used..];
    var workers := ChooseWorkers(cfg, rest);
    if !workers.Ok? {
      return Halt(workers), [];
    }
    rest := rest[workers.used..];
    var fmt := ChooseQuality(rest);
    if !fmt.Ok? {
      return Halt(fmt), [];
    }
    var urls := GetUrls(rest[fmt.used..]);
    if !urls.Ok? {
      return Halt(urls), [];
    }
    if urls.value == [] {
      return Returned, [];
    }
    events := [ConfigSaved(cfg.entries)];
    if !ValidPoolSize(workers.value) {
      return Raised(PoolError(workers.value)), events;
    }
    var batch := RunBatch(urls.value, fmt.value, dir.value, appDir, status);
    events := events + batch + [Notified(Title, Message(|urls.value|, dir.value))];
    assert events[1..|events| - 1] == batch;
    return Returned, events;
  }
}
