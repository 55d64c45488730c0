# Batch yt-dlp downloader: a Dafny model of its decision logic

`tool.py` is an interactive script. It asks for a download directory, a number of
worker threads, a quality and a list of Twitch links. It then submits `download`
once per link to a thread pool. Each `download` runs `yt-dlp` up to three times,
and every run uses the same shared download archive. Finally the script pops up
a completion notice. This project models the
script's decisions and proves what they guarantee:

- `text.dfy` (module `Text`): the Python string operations the prompts use.
  These are `strip()`, `lower()`, `startswith()`, `isdigit()`, `int()` on digits
  and the decimal rendering of a count.
- `prompts.dfy` (module `Prompts`): `choose_download_dir`, `choose_workers`,
  `choose_quality` with `QUALITY_MAP`, and `get_urls`. Each call to `input()`
  takes the next string of an input sequence. Running out of lines is Python's
  `EOFError`. The `cfg` dictionary is a `Config` object whose `entries` map the
  two `choose_*` methods update in place.
- `downloader.dfy` (module `Downloader`): `download`, meaning the 18-element
  `yt-dlp` argv and the retry loop. The subprocess is an oracle giving the exit
  status of each attempt. The loop's result is an explicit `Succeeded(k)` or
  `Skipped(3)`.
- `program.dfy` (module `Program`): `main`. It runs the four prompts in order,
  returns early when no link was given, saves the configuration, submits every
  link to `download` once and sends one notification that reports `len(urls)`.
  Its observable effects are a sequence of events.

Three consequences of the code that the model keeps:

- A stored `max_workers` is used as the default without validation. When the typed
  answer is not a positive numeral and at least one link is given, a stored `0`
  or a string reaches `ThreadPoolExecutor`. The pool then raises `ValueError` or
  `TypeError`, after the configuration has been saved. The value is not clamped to 1.
- With no links, `main` returns before saving the configuration and before any
  notification. No zero-count notice is sent.
- No succeeded/skipped counts are computed. `download` returns nothing either
  way, and the notice reports only the number of links.

## Model

| member | source | states |
|---|---|---|
| `Text.Strip` | tool.py:149 | `strip()` leaves no whitespace at either end, never lengthens the string, and leaves an already stripped string unchanged |
| `Text.StripIsInfix` | tool.py:149 | `strip()` returns a slice of the line with only whitespace cut off before and after it, so together with `Strip`'s contract the result is fixed |
| `Text.StripPadded` | tool.py:112 | a non-empty stripped string surrounded by any blanks strips back to itself |
| `Text.LowerChars` | tool.py:90 | `lower()` leaves no upper-case letter, turns each upper-case letter into its lower-case one and keeps every other character |
| `Text.ParseDigits` | tool.py:113 | `int(val)` of a string of digits is 0 exactly when every digit is '0' |
| `Text.ParseLeadingZeros` | tool.py:113 | leading zeros do not change the value `int(val)` reads |
| `Text.NatToString` | tool.py:215 | the count in the notice is a non-empty numeral of decimal digits without leading zeros |
| `Text.ParseNatToString` | tool.py:113 | `int()` of the numeral of `n` is `n` |
| `Text.NatToStringInjective` | tool.py:215 | distinct counts give distinct numerals |
| `Prompts.DirChoice` | tool.py:87-106 | a stored directory is reused, with cfg unchanged, on an empty/"y"/"yes" answer to the first line; a stored value that is not a string raises `TypeError`; otherwise the path is read from the next line (the first one when nothing is stored) and the remember answer from the line after it; an empty path exits with status 1 and stores nothing; a non-empty path is the stripped answer; cfg changes only at `download_dir`, to the new path, and exactly when the remember answer is "y"/"yes"; a missing line at any question raises `EOFError` with cfg unchanged |
| `Prompts.ChooseDownloadDir` | tool.py:87-106 | the method's answer and the new `cfg` are those of `DirChoice` on the old `cfg` |
| `Prompts.DefaultWorkerCount` | tool.py:111 | the default is the stored `max_workers`, whatever its type, and 2 when none is stored |
| `Prompts.Workers` | tool.py:113 | the worker count is either a positive integer or the unvalidated default; `WorkersOfNumeral`, `WorkersOfZeros` and `WorkersOfNonNumeral` give its value |
| `Prompts.WorkersOfNumeral` | tool.py:112-113 | typing a positive `n` as its numeral, with any leading zeros and any surrounding blanks, gives `n` workers |
| `Prompts.WorkersOfNonNumeral` | tool.py:113 | an empty answer, or one with a sign, letter or inner blank, gives the default, whatever it is |
| `Prompts.WorkersOfZeros` | tool.py:112-113 | an answer made of zeros, with any surrounding blanks, gives the default |
| `Prompts.WorkersChoice` | tool.py:110-119 | the count comes from the first answer and the default is `cfg.get("max_workers", 2)`; cfg changes only at `max_workers`, to that count, and exactly when the second answer is "y"/"yes"; a missing answer raises `EOFError` and leaves cfg unchanged |
| `Prompts.ChooseWorkers` | tool.py:110-119 | the method's answer and the new `cfg` are those of `WorkersChoice` on the old `cfg` |
| `Prompts.QualityMenu` | tool.py:123-129 | `QUALITY_MAP` has exactly the keys "1" to "5", and distinct keys select distinct formats |
| `Prompts.QualityStep` | tool.py:123-141 | the answer is `QUALITY_MAP[c][1]` for the first line `c` that strips to a key "1".."5"; every earlier line is ignored; with no such line `input()` raises `EOFError` |
| `Prompts.ChooseQuality` | tool.py:131-141 | the prompting loop returns exactly what `QualityStep` describes |
| `Prompts.Links` | tool.py:149-155 | every kept string starts with "http" and is stripped; no more strings than lines |
| `Prompts.LinksAppend` | tool.py:147-155 | filtering distributes over concatenation, so links keep their input order |
| `Prompts.LinksSkip` | tool.py:152-154 | a line that is not a link is skipped and contributes nothing |
| `Prompts.LinksMembers` | tool.py:149-155 | a string is kept exactly when it is the stripped form of some line starting with "http" |
| `Prompts.UrlsStep` | tool.py:145-156 | the result is the links among the lines before the first empty or "q"/"Q" line, which is consumed; with no such line `input()` raises `EOFError` |
| `Prompts.GetUrls` | tool.py:145-156 | the reading loop returns exactly what `UrlsStep` describes |
| `Downloader.ArchiveFile` | tool.py:21 | the archive is `downloaded.txt` in the script's directory |
| `Downloader.Command` | tool.py:160-175 | the argv has 18 elements: "yt-dlp", the url at 1, "-f" and the format at 2-3, `--download-archive` with the one archive path at 14-15, `-o` and the output template in the download directory at 16-17 |
| `Downloader.CommandDeterminesTask` | tool.py:163-175 | two tasks give the same argv only when their url, format and directory agree |
| `Downloader.RetryOutcome` | tool.py:177-187 | between 1 and 3 attempts; success exactly when some attempt 1..3 exits 0, and then it is the first such attempt; skipped exactly when all 3 failed, and then after 3 attempts |
| `Downloader.Download` | tool.py:160-187 | the outcome is `RetryOutcome` of the exit statuses; attempts are numbered 1, 2, 3 in order, one per run, and every run uses the same argv |
| `Program.Interview` | tool.py:191-197 | only `download_dir` and `max_workers` can change in cfg, every other key keeps its value and no other key is added; every link starts with "http" |
| `Program.Message` | tool.py:215 | the notice text is the fixed head, the numeral of the task count, the fixed middle and then the directory |
| `Program.MessageReportsTasks` | tool.py:214-215 | the notice text determines the task count and directory it reports |
| `Program.PoolError` | tool.py:209 | `ThreadPoolExecutor` refuses a worker count that is not a positive integer with `ValueError` for a number and `TypeError` for a string |
| `Program.PoolFailsOnlyOnStoredCount` | tool.py:111-113 | the pool can refuse the count only when it is a stored `max_workers` taken unvalidated as the default |
| `Program.RunBatch` | tool.py:209-212 | one finished download per link, in submission order: link `k` is submitted once, its outcome is `RetryOutcome` of its statuses and its runs all use its argv |
| `Program.RunMain` | tool.py:191-217 | a prompt that exits or raises ends `main` with no effect; with no links `main` returns before saving, downloading or notifying; otherwise cfg is saved first; a worker count that is not a positive integer raises after the save; otherwise every link is downloaded once and then one notice reports `len(urls)` and the directory |

## Left out

- `Prompts.Workers`, `Prompts.WorkersOfNumeral`, `Prompts.WorkersOfZeros`: the limit recent CPython releases put on `int()` of a long digit string is not modelled. Since 3.11 (and the matching 3.7-3.10 security releases), a string of more than 4300 digits raises `ValueError`, and `choose_workers` would let it escape. The model parses numerals of any length, so its results hold only for answers within that limit. The exact way the limit counts digits depends on the interpreter version, which is why it is left out.

- Running `yt-dlp`: it is an oracle of exit statuses. Exceptions other than `CalledProcessError` (a missing binary, say) escape the retry loop and are lost in the unread futures; they are not modelled.
- `ThreadPoolExecutor` and `as_completed`: downloads run one after another in submission order. Bounded concurrency and completion order are not modelled.
- `load_config`/`save_config`: JSON file I/O. `RunMain` starts from the loaded dictionary and records the save as an event. JSON values other than strings and integers are not modelled.
- `system_notify` and `popup_alert`: OS toasts, `notify-send`, `osascript` and the tkinter popup on a daemon thread. Only the title and text handed to them are modelled, as one event.
- Logging through colorama, and the `KeyboardInterrupt` handler.
- `mkdir` of the download directory, and `Path` normalisation: paths are opaque strings joined with `/`.
- Unicode behaviour of `strip()`, `lower()` and `isdigit()`: only ASCII whitespace, letters and digits are modelled.
