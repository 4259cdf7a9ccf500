# fillmp3 in Dafny

fillmp3 fills a music player with random songs from an m3u playlist. It reads
the playlist into a map from file path to size. It then draws paths at random,
without putting them back. A drawn file is copied to the device if it still fits
the byte budget, and the run stops when one of these happens:

- the item count is used up;
- the playlist is used up;
- an oversized file is drawn once too often in a row.

Each copied file keeps up to `--parents` of its parent directories above its name.
The budget is the device's free space, or the value of `--size`. The size is a
decimal number followed by a k/m/g unit, with an optional `i` for the 1024-based
form. The unit is required: without one the script raises.

The project models these parts:

- `wrappers.dfy`: `Option` and `Result`.
- `text.dfy`: ASCII whitespace and `str.strip()`.
- `paths.dfy`: POSIX paths as sequences of names.
  - `dirname`, `basename` and `join` over those names.
  - The loop that builds the destination name (`TargetName`), proved equal to a
    closed form (`TargetOf`).
- `size_parser.dfy`: `parse_size`.
  - A hand-written recognizer for its regular expression, plus the `units` table.
  - The result is a value or the reason the script stops.
  - A separate definition of what each unit letter means (`Scale`), to prove the
    parser against.
- `playlist.dfy`: the loop of `parse_playlist`.
  - It is proved equal to a fold (`Loaded`), and that fold is characterised outright.
  - The URL-to-path conversion and `os.stat` are parameters.
- `fill.dfy`: the selection loop of `fill`.
  - `Next` is one pass of the loop as a function on a `State`.
  - `Reachable` is the invariant of every state reachable from the start.
  - `Selector` is a class whose fields are the loop's variables.
    - `Step` takes the random draw as a parameter and is proved to compute `Next`.
    - `Run` is the `while` loop; it picks each draw with `:|`, so every property
      holds for every sequence of draws.
  - `Fill` is the whole of `fill`: it loads the playlist, settles the budget and
    runs the loop.

The model keeps a ghost history of draws, which the script does not have. Each
draw records the path, its size, and whether it was accepted, skipped or ended
the run. The invariant ties the loop's variables to this history.

## Model

| member | source | states |
|---|---|---|
| Paths.Dirname | fillmp3.py:79 | `dirname` keeps absoluteness and drops exactly the last name; a path without names is unchanged |
| Paths.Basename | fillmp3.py:82 | `basename` is relative and holds only the last name, or nothing when the path has no names |
| Paths.Join | fillmp3.py:82 | `join(a, b)` is `b` when `b` is absolute, otherwise `a`'s names followed by `b`'s |
| Paths.ParsePath | fillmp3.py:79-85 | reading a string gives only non-empty, slash-free names, and the path is absolute exactly when the string starts with '/' |
| Paths.ParseRender | fillmp3.py:79-85 | writing a well-formed path out and reading it back gives the same path |
| Paths.LastN | fillmp3.py:81-83 | walking up k times collects the last names of the directory, exactly min(k, number of names) of them, and none when k <= 0 |
| Paths.TargetOf | fillmp3.py:78-85 | the destination name in closed form: the last `depth` parent names, then the file name. What it means is stated by TargetIsSuffix, ShallowTarget and DeepTarget, and the loop is proved equal to it by TargetName |
| Paths.TargetName | fillmp3.py:78-85 | the `for` loop over `range(0, depth)` followed by the final join yields exactly `TargetOf`: the last `depth` parent names, then the file name |
| Paths.WalkContext | fillmp3.py:81-83 | the `for` loop over `range(0, depth)`, walking up with `dirname` and prepending each `basename`, leaves exactly the last `depth` names of the parent directory in the context |
| Paths.TargetIsSuffix | fillmp3.py:78-85 | the destination is relative, is a suffix of the source's names, keeps the file name and at most `depth` + 1 names |
| Paths.ShallowTarget | fillmp3.py:81 | a depth of 0 or less gives only the basename (empty `range`) |
| Paths.DeepTarget | fillmp3.py:81-83 | a depth at least the number of parent directories gives the whole path, made relative |
| Paths.ExampleTargets | fillmp3.py:78-85 | `/music/Artist/Album/track.mp3` becomes `Artist/Album/track.mp3` at depth 2 and `track.mp3` at depth 0 |
| Text.Strip | fillmp3.py:106 | the stripped line is no longer than the line and neither starts nor ends with whitespace |
| SizeParser.ParseSize | fillmp3.py:112-124 | `parse_size` succeeds exactly when the expression matches and reports a prefix, and quits exactly when it does not match. The value for each input is stated by ParseSizeScaled, ParseSizeNoNumber and ParseSizeNoUnit |
| SizeParser.SkipSpaces | fillmp3.py:113 | `\s*` consumes the longest run of whitespace |
| SizeParser.SkipDigits | fillmp3.py:113 | `[0-9]+` consumes the longest run of digits |
| SizeParser.PrefixEnd | fillmp3.py:113 | `[kmg]i?` takes a unit letter exactly when one is there, plus one more character exactly when it is an `i` |
| SizeParser.Match | fillmp3.py:113-115 | a reported match has a non-empty all-digit `number`, and a `prefix` that is a unit letter optionally followed by `i` |
| SizeParser.DecimalValue | fillmp3.py:120 | the decimal value of n ASCII digits, as `int()` reads them, is below 10^n (no digit-count limit, see Left out) |
| SizeParser.DecimalLeadingZero | fillmp3.py:120 | `int()` ignores a leading zero: "0" followed by the digits has the digits' value |
| SizeParser.Lower | fillmp3.py:121 | `.lower()` keeps the length and lower-cases each ASCII letter in place |
| SizeParser.Units | fillmp3.py:11 | the `units` table, six entries; PrefixInUnits states that each is 1000 or 1024 raised to its unit's rank |
| SizeParser.PrefixInUnits | fillmp3.py:11 | every prefix shape is, lower-cased, a key of `units`, whose entry is 1000 or 1024 raised to the unit's rank |
| SizeParser.MatchedPrefixInUnits | fillmp3.py:121-123 | any prefix the match reports is a key of `units`, so the lookup always applies |
| SizeParser.ParseSizeScaled | fillmp3.py:112-124 | whitespace, digits, whitespace, then a unit letter: the size is the number times 1000^rank, or 1024^rank when an `i` follows |
| SizeParser.ParseSizeNoNumber | fillmp3.py:113-118 | when no digit follows the leading whitespace the match fails and the script quits |
| SizeParser.ParseSizeNoUnit | fillmp3.py:120-121 | digits with no unit letter after them leave `prefix` absent, and `.lower()` fails |
| SizeParser.ParseSizeIgnoresTail | fillmp3.py:113-115 | text after a match that ends before the end of the string changes neither the match nor the size (`re.match`, not a full match) |
| SizeParser.ParseSizeKilo | fillmp3.py:112-124 | "10K" is 10000 |
| SizeParser.ParseSizeKibibyte | fillmp3.py:112-124 | "10KiB" is 10240 |
| SizeParser.ParseSizeMegabyte | fillmp3.py:112-124 | "10MB" is 10000000 |
| SizeParser.ParseSizeSpacedGibibyte | fillmp3.py:112-124 | " 10 GiB x" is 10737418240: spaces are allowed and trailing text is ignored |
| SizeParser.ParseSizeRejects | fillmp3.py:116-121 | "abc" and "" do not match; "10" and "10b" have no prefix and fail |
| Playlist.Loaded | fillmp3.py:99-110 | the fold of the loop over the first n lines; LoadedSucceeds, LoadedContents and LoadedFailure characterise it, and ParsePlaylist is proved equal to it |
| Playlist.LoadedMeaning | fillmp3.py:99-110 | loading succeeds exactly when every line is a comment or names a file that can be stat'd. Then the map's keys are the paths of the non-comment lines, each mapped to its `st_size`. Otherwise the error is the one of the first line that does not load |
| Playlist.LoadedSucceeds | fillmp3.py:101-108 | loading the first n lines succeeds exactly when each of them is a comment or names a file that can be stat'd |
| Playlist.LoadedContents | fillmp3.py:105-108 | after a successful load the map's keys are exactly the paths of the non-comment lines, each mapped to what `os.stat` reports for it |
| Playlist.LoadedFailure | fillmp3.py:101-108 | a failed load reports the error of the first line that does not load, all lines before it having loaded |
| Playlist.ParsePlaylist | fillmp3.py:99-110 | the loop returns `Loaded` of all the lines, including its early exits on an error |
| Playlist.StaysFailed | fillmp3.py:103-108 | once a line has raised, later lines change nothing |
| Fill.Next | fillmp3.py:66-93 | one pass of the loop body as a function of the state; its three cases are stated by NextCases, and NextReachable proves it keeps the invariant |
| Fill.StartReachable | fillmp3.py:52-64 | the state before the first draw satisfies the invariant |
| Fill.NextReachable | fillmp3.py:65-93 | one pass of the loop body keeps the invariant, and the drawn key is gone from `files` |
| Fill.NextShrinks | fillmp3.py:65-69 | every pass deletes the drawn key, so `len(files)` falls by one and the loop ends |
| Fill.NextKeepsMisses | fillmp3.py:71-91 | `space_left` only decreases, and a draw that is not copied is larger than it, so every file drawn and not copied stays too large for what is left |
| Fill.StepReachable | fillmp3.py:65-93 | the state after any pass of the loop body from a running reachable state is reachable again and has fewer files left to draw |
| Fill.DrawnOnce | fillmp3.py:66-69 | in every reachable state no path was drawn twice, and every draw is a playlist entry with its playlist size |
| Fill.NoStopsMeaning | fillmp3.py:71-73 | the draw-by-draw definition of "no `break`" holds exactly when no draw of the history is the `break` |
| Fill.SourcesOfAccepted | fillmp3.py:66-96 | the sources of the result are exactly the paths of the accepted draws |
| Fill.DrawnSplit | fillmp3.py:66-93 | every drawn path was either copied or refused, never both |
| Fill.RejectedTooLarge | fillmp3.py:71-91 | every path drawn and refused is a playlist entry larger than the space left |
| Fill.FinishedAtEnd | fillmp3.py:65-76 | when the loop has stopped, the count is used up, or every playlist file was copied, or a file that was not copied is larger than what is left of the budget |
| Fill.StopsOnlyLast | fillmp3.py:71-73 | in every reachable state only the last draw can be the `break`: the loop runs no pass after it |
| Fill.NextCases | fillmp3.py:71-93 | an oversized draw stops the run exactly when `tries >= try_small`; otherwise it is skipped, adding one to `tries` and changing only `files` and the history besides. A draw that fits lowers `space_left` by its size and `files_left` by one, resets `tries`, and appends its entry |
| Fill.AcceptedFromDraws | fillmp3.py:78-96 | every accepted entry comes from a drawn path and carries that path's destination |
| Fill.AcceptedDistinct | fillmp3.py:66-69 | since no path is drawn twice, accepted sources are distinct |
| Fill.AcceptedSizeIsChosenSize | fillmp3.py:67-91 | the bytes charged to `space_left` are the playlist sizes of the accepted files |
| Fill.ChosenWithinLimits | fillmp3.py:53-96 | in every reachable state the accepted files are distinct playlist entries with their own destinations. From a non-negative budget, `space_left` stays non-negative and the accepted sizes add up to budget − `space_left`. A non-negative count caps them, and a negative count (-1) never reaches 0 |
| Fill.MissesBounded | fillmp3.py:71-76 | no run of consecutive skipped draws is longer than max(`try_small`, 0) |
| Fill.NoRetryStopsAtFirstMiss | fillmp3.py:32-34 | with `try_small` <= 0 (the default 0 and the `-t` constant -1), the first oversized draw ends the run and changes neither budget, count nor result |
| Fill.LargeLimitNeverStops | fillmp3.py:71-76 | with `try_small` at least the playlist's size, no draw ever hits the `break` |
| Fill.InitialBudget | fillmp3.py:54-61 | the budget is 0, then the free space with `--fill`, then the parsed `--size` when one is given; BudgetSources states which input decides it |
| Fill.BudgetSources | fillmp3.py:54-61 | a non-empty `--size` alone decides the budget; without one it is the free space, or 0 without `--fill` |
| Fill.Selector.constructor | fillmp3.py:52-64 | the loop's variables start at the playlist, the budget, the count and 0 misses, satisfying the invariant |
| Fill.Selector.Step | fillmp3.py:66-93 | one pass of the loop body, in place: the new fields are `Next` of the old ones, and the outcome is that of the new draw |
| Fill.Selector.Run | fillmp3.py:65-96 | the loop keeps the invariant and ends only when the count or the playlist is used up, or on the `break` |
| Fill.Fill | fillmp3.py:51-96 | a playlist error or a size error is reported as such, and otherwise the run succeeds. The result lists distinct playlist entries with their destinations, together no larger than the budget and no more than a non-negative count. The run ended because the count was used up, or every playlist file was copied, or a file left out is larger than what is left of the budget |

## Left out

- `random.choice` and its uniform distribution: the draw is any key of the remaining map, and every property holds for all draws.
- `os.statvfs`: the free space is the parameter `freeSpace`; an unreadable target directory is not modelled.
- `os.makedirs`, `shutil.copyfile` and `print`: an accepted entry stands for the copy and the printed name. A failing copy and the dry-run and verbose switches, which only gate this I/O, are not modelled.
- `urllib.parse.urlparse`, `unquote` and `os.stat` in `parse_playlist`: these are the parameters `resolve` and `stat`; `stat` answers None where `os.stat` would raise.
- `main` and argparse: the settings are parameters. As parsed, `--fill` is always true (`store_true` with default True); the model takes it as a parameter. `-n` has no `type=int`, so a count given on the command line is a string on which `files_left -= 1` raises. The model takes the count as an integer.
- `--size` given as an empty string counts as absent, as `if(args.size)` does.
- The playlist is a sequence of lines as iterating the file yields them, each with its line terminator. A blank line is then "\n": it passes `line[0]`, strips to the empty path and fails `os.stat` (`Missing`). `EmptyLine` is the IndexError on a literal empty string, which a file never yields; the model keeps it because its lines are arbitrary strings.
- Unicode: `\s` and `str.strip()` are limited to ASCII whitespace, and `re.I` to ASCII letters.
- Paths ending in '/' and runs of '/' are read as their names. `basename` of a path ending in '/' is empty in Python, but the model takes its last name. The trailing '/' that `os.path.join(name, "")` leaves on the context is not represented either, and it does not change the final destination.
- Text.Strip: the contract states only that the result has no whitespace at either end and is no longer than the input. It does not state that the result is the middle part of the input; `Strip`'s body defines that.
- SizeParser.DecimalValue: reads a digit run of any length. Recent CPython releases (3.11 and later, and the 3.10.7, 3.9.14, 3.8.14 and 3.7.14 security releases) limit `int()` of a string to 4300 digits by default (`sys.set_int_max_str_digits`), so a longer number raises `ValueError` at fillmp3.py:120, while `ParseSize` here succeeds. The limit depends on the interpreter version and its settings, so it is not modelled.
- Fill.Selector.Run: the contract states the invariant and the end condition, not which files are chosen; that depends on the draws.

The `--size` help text (fillmp3.py:29-30) describes the value as an amount of data in bytes, with unit abbreviations accepted. A bare number such as "10" is nevertheless not read as 10 bytes. Without a k/m/g unit the regular expression's `prefix` group is `None`, and `.lower()` raises at fillmp3.py:121. The model follows the code: `ParseSize` reports `NoPrefix` for "10" and "10b".
