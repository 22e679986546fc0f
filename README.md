# wetter.py — a Dafny model of the weather-map overview core

`wetter.py` builds a composite "Grosswetterlage" overview of central and north-east
Europe. On a fixed schedule it collects weather maps from DWD, ZAMG, KNMI and
wetter.net, plus the wetter.net forecast text, and draws them on a 5 x 3 grid. This
project models the deterministic parts of that program and proves what they promise:

- **Schedule** (`schedule.dfy`): `gen_times_to_run`. It picks the start hour from the
  hour bands, parses the day count with `\s([0-9]+)\s` and the hour step with
  `([0-9]+)\s`, and runs `perdelta`. Times are whole hours (`24 * day + hour`), and
  the clock reading is a parameter.
- **Text helpers** (`text.dfy`): Python's `str.isspace`, `str.strip`, decimal
  parsing and slice clamping with negative indices.
- **Extraction** (`extract.dfy`): `reFind`, `get_gwl_string` and
  `find_cur_ZAMG_img_url`. The lists `re.findall` returns are inputs. HTML
  unescaping is a function the caller supplies.
- **Rewrap** (`rewrap.dfy`): `re.sub(r'(.{70}\w*?)(\s)', r'\1\n', s)` written as a
  left-to-right scan. It is proved to change only whitespace into newlines, to
  break only where the pattern matches, and to miss no stretch the pattern can
  match.
- **KNMI** (`knmi.dfy`): the count check in `find_cur_KMNI`, the padding loop that
  brings the id list up to four, the URL loop, and the `[-14:-10]` title.
- **Overview** (`overview.dfy`): the 13-entry placement table, the file-name and
  extension rule, the download loop without the network, the drawing loop on
  `GridSpec(5, 3)` with the index shift past the text entry, and one whole run of
  `create_grosswetterlage_overview_map` from the pattern matches to the subplots.
  Each of the two `time.strftime` readings is passed in as a `timestamp` string.

Where the program raises, the model returns a `Result` error. `IndexError` stands
for an index into an empty list. `NoMatch` stands for the bare `raise Exception`
in `reFind`. `gen_times_to_run` has an error type of its own.

Three facts about the code are easy to get wrong:

- The default `stop='in 21 days', delta='6 hours'` gives 85 runs. The end is
  `start + 21 days + 6 hours` (wetter.py:289), and `perdelta` yields while the time
  is strictly below it (wetter.py:305). So the runs cover 0 to 504 hours after the
  first, in steps of 6, and the last falls exactly 21 days after the first
  (`DefaultSchedule`).
- No `try` surrounds the calls at wetter.py:114-125, so a failure in any source
  aborts the whole map. `CollectTable` and `CreateOverviewMap` state which failure
  wins.
- `GridSpec(n_rows, 3)` at wetter.py:195 makes a grid of 5 rows and 3 columns. The
  table's columns 0 to 2 are the second index, as the comment at wetter.py:135-137
  says.

## Model

| member | source | states |
|---|---|---|
| Schedule.TimeToStart | wetter.py:250-260 | The start hour is the lower bound of the band (1-6, 7-12, 13-18) that holds the current hour, and 19 outside every band. |
| Schedule.SearchSpacedNumber | wetter.py:268 | Finds the leftmost whitespace, digits, whitespace run at or after a position, and reports none when no position has one. |
| Schedule.SearchNumberSpace | wetter.py:279 | Finds the leftmost digits-then-whitespace run at or after a position, and reports none when no position has one. |
| Schedule.DayCount | wetter.py:268-275 | No day count exactly when `stop` holds no `\s[0-9]+\s`. Otherwise the count is the decimal value of the digits of the leftmost match, the one `re.search` returns. |
| Schedule.HourStep | wetter.py:279-286 | No hour step exactly when `delta` holds no `[0-9]+\s`. Otherwise the step is the decimal value of the digits of the leftmost match, the one `re.search` returns. |
| Schedule.PerDelta | wetter.py:303-307 | The k-th yielded time is `start + k*delta`, each one is below `end`, the next step would reach `end`, and nothing is yielded when `start >= end`. |
| Schedule.GenTimesToRun | wetter.py:242-301 | A start other than `today`, a missing day count and a missing hour step each fail with their own error. A zero step with days to cover never ends. Otherwise the result is the run schedule from the start hour of the current day: `ceil(24 days / hours) + 1` runs, `hours` apart. |
| Schedule.StepCount | wetter.py:289-299 | A run count whose last step stays below `24 days + hours` and whose next step would reach it is `ceil(24 days / hours) + 1`. |
| Schedule.ScheduleSteps | wetter.py:297-307 | A schedule with a positive step starts at the first run, and each run is exactly one step after the previous one, so the runs strictly increase. |
| Schedule.ScheduleEnds | wetter.py:288-290 | Every run lies before `start + 24*days + hours`, and the last run lies in `[start + 24*days, start + 24*days + hours)`, so the final time is the one desired. |
| Schedule.DefaultDayCount | wetter.py:46 | The default `stop='in 21 days'` parses to 21 days. |
| Schedule.DefaultHourStep | wetter.py:46 | The default `delta='6 hours'` parses to 6 hours. |
| Schedule.DefaultSchedule | wetter.py:46 | The default schedule has 85 runs, and the last one is exactly 21 days after the first. |
| Text.IsSpace | wetter.py:268 | Whitespace for `\s` and `strip`: the code points Python's `str.isspace` accepts. |
| Text.DecimalValue | wetter.py:272 | `int()` of a run of ASCII digits. `DefaultDayCount` and `DefaultHourStep` evaluate it. |
| Text.PySlice | wetter.py:142 | Python's `s[start:stop]` with negative and clamped bounds; never longer than `s`. `TitleOfUrl` and `FileNameRule` resolve the slices the program takes. |
| Text.Strip | wetter.py:342 | The result is a contiguous part of the input, only whitespace is cut at either end, and the result neither starts nor ends with whitespace. |
| Text.StripIdempotent | wetter.py:342 | Stripping twice is stripping once. |
| Text.StripKeepsTrimmed | wetter.py:342 | A text that neither starts nor ends with whitespace is unchanged by strip. |
| Extract.ReFind | wetter.py:332-343 | No match fails with `NoMatch` exactly when the match list is empty; otherwise the result is the first match, unescaped and stripped. |
| Extract.ReFindFirstMatchOnly | wetter.py:336-343 | Matches after the first never change the result, and the result carries no whitespace at either end. |
| Extract.GwlString | wetter.py:310-329 | Fails with `NoMatch` exactly when the title or the forecast has no match. Otherwise it returns the stripped title and the rewrapped, stripped forecast. |
| Extract.FindCurZamg | wetter.py:367-373 | Fails with `IndexError` exactly when there is no match; otherwise it returns the first match's address and id. |
| Rewrap.MatchAt | wetter.py:324 | A match found at a position is the lazy one: 70 characters without a newline, then word characters only, ending at the first whitespace. |
| Rewrap.LazyEndFinds | wetter.py:324 | When a whitespace is reachable over word characters, `\w*?(\s)` finds a whitespace no later than it. |
| Rewrap.MatchAtFinds | wetter.py:324 | Whenever the pattern can match from a position, the scan finds a match there that ends no later. |
| Rewrap.RewrapFrom | wetter.py:326 | The rewrap from any position keeps the length of the rest of the text. |
| Rewrap.RewrapFromSound | wetter.py:323-326 | Every character is copied, or is a whitespace replaced by a newline at the end of a lazy match whose characters are copied unchanged. |
| Rewrap.RewrapFromComplete | wetter.py:323-326 | Every stretch from a position onward that the pattern can match has a newline inside it. |
| Rewrap.Rewrap | wetter.py:326 | `pattern.sub(r'\1\n', prognose)`. `RewrapSpec` states what it does. |
| Rewrap.RewrapSpec | wetter.py:323-326 | The rewrap keeps the length and turns only whitespace into newlines. Each new newline follows at least 70 characters without a newline and ends a match of the pattern. Every stretch the pattern can match receives a newline. |
| Rewrap.RewrapShortText | wetter.py:323-326 | A text of at most 70 characters comes back unchanged. |
| Knmi.Url | wetter.py:130-133 | `base_url_kmni % id`. `UrlRoundTrip` proves the id comes back out. |
| Knmi.Title | wetter.py:142-147 | `'KMNI_' + url[-14:-10]`. `TitleOfUrl` gives its value for a KNMI address. |
| Knmi.FindCurKnmi | wetter.py:346-364 | The ids come back as found, and the warning is printed exactly when the count is not four; nothing is raised. |
| Knmi.PadToFour | wetter.py:127-129 | An empty list fails with `IndexError`. Otherwise the result keeps the ids in order and repeats the last id up to four entries. It is never shorter than four, and a longer list is unchanged. |
| Knmi.UrlRoundTrip | wetter.py:130-133 | The id can be read back out of its address, so distinct ids give distinct addresses. |
| Knmi.BuildUrls | wetter.py:131-133 | One address per id, in order, each the template filled with that id. |
| Knmi.TitleOfUrl | wetter.py:142 | The title of a KNMI address is `KMNI_` plus the four characters before `_large.gif`, which are the id's last four when it has four. |
| Overview.Table | wetter.py:140-153 | The placement table has 13 entries. |
| Overview.TableInfoBox | wetter.py:144 | The text entry is at index 4 and nowhere else, and it carries the forecast and the title. |
| Overview.TableInGrid | wetter.py:140-153 | Every entry's row and column lie inside the 5 x 3 grid. |
| Overview.TableCellsDistinct | wetter.py:140-153 | No two entries share a grid cell. |
| Overview.TableIdsDistinct | wetter.py:140-153 | No two entries share an id. |
| Overview.TableSources | wetter.py:141-147 | The ZAMG entry shows the resolved address. The four KNMI entries show the four KNMI addresses in order, each titled from its own address. |
| Overview.TableWellFormed | wetter.py:140-153 | The table is well formed: 13 entries, the text entry only at index 4, distinct cells inside the grid, distinct ids. |
| Overview.FileNameRule | wetter.py:163-172 | An id starting with `KNMI` gets `gif`, and any other id keeps the last three characters of its address. The name carries the timestamp exactly when individual images are kept. |
| Overview.FileNamesDistinct | wetter.py:163-174 | Entries with distinct ids and three-letter extensions are written to distinct files. |
| Overview.JoinPathInjective | wetter.py:174 | Joining one directory with two distinct relative names gives two distinct paths. |
| Overview.DownloadedAppend | wetter.py:159-161 | The list of downloaded entries of a concatenation is the concatenation of the lists. |
| Overview.DownloadedHasNoText | wetter.py:160-161 | The text entry is never downloaded. |
| Overview.DownloadedSkipsInfoBox | wetter.py:157-183 | With the text entry only at index 4, the downloads are the table without that entry, in order. |
| Overview.ShiftSelectsOwnImage | wetter.py:211-213 | After the shift past index 4, each image entry selects its own downloaded file. |
| Overview.DownloadImages | wetter.py:157-183 | One path per downloaded entry, in table order, each the join of the image directory and that entry's file name. |
| Overview.GridIndex | wetter.py:207 | Indexing an axis of n cells succeeds exactly for `-n <= k < n`. An index in `0..n-1` selects itself, a negative one selects `k + n`, and a result always lies inside the axis. |
| Overview.PlaceCells | wetter.py:198-230 | Fails with `IndexError` exactly when some entry lies off the grid or its shifted file index is out of range. Otherwise there is one subplot per entry, at its cell, with its title, showing the text or the shifted file through the reader its id calls for. |
| Overview.PaddedUrls | wetter.py:127-133 | After padding and the URL loop, KNMI address k is built from id k, or from the last id when there are fewer than k + 1 ids. The whole list equals `KnmiAddresses` of the page's ids. |
| Overview.ThreeLetterExtension | wetter.py:163-166 | An id starting with `KNMI`, or an address of at least three characters, gives a three-letter extension. |
| Overview.FileNamesApart | wetter.py:169-174 | Entries whose ids start with different characters are written to different files, whatever their extensions. |
| Overview.TableExtensions | wetter.py:140-153 | Every image entry except ZAMG has a three-letter extension, and only the ZAMG id starts with `z`. The case matters because the ZAMG address is taken from the page. |
| Overview.TableFilesDistinct | wetter.py:157-181 | No two image entries of the table are written to the same file. The `wb` write of one entry therefore never overwrites another entry's image before the drawing loop reads it. |
| Overview.DownloadsDistinct | wetter.py:157-183 | The 12 paths in `tmp_lst_imgs` are pairwise distinct. |
| Overview.ImagesOfEntries | wetter.py:157-213 | For a well-formed table there are 12 files, and each image entry's shifted index yields its own file path. |
| Overview.PlaceableTable | wetter.py:194-230 | Every entry of a well-formed table can be drawn with 12 files. |
| Overview.CellsOfTable | wetter.py:198-230 | The 13 subplots lie on distinct grid cells with their entries' titles. The text cell shows the forecast, and every other cell draws its own file. |
| Overview.KnmiAddresses | wetter.py:127-133 | The padded KNMI address list, at least four long. `PaddedUrls` proves that the padding loop and the URL loop build exactly this list. |
| Overview.Extension | wetter.py:163-166 | The extension rule; `FileNameRule` gives its value. |
| Overview.FileName | wetter.py:168-172 | The image file name; `FileNameRule` gives its shape. |
| Overview.JoinPath | wetter.py:174 | POSIX `os.path.join`. `JoinPathInjective` proves that distinct relative names stay distinct. |
| Overview.Downloaded | wetter.py:159-161 | The entries the download loop does not skip, never more than the table has. `DownloadedSkipsInfoBox` gives its value. |
| Overview.ReaderFor | wetter.py:216-228 | The reader chosen by id. `PlaceCells` and `CellsOfTable` show that each image cell uses it. |
| Overview.CollectTable | wetter.py:104-153 | Fails exactly when one of the four match lists is empty. The error is that of the first failing source, in the source's order: ZAMG, then wetter.net, then KNMI. On success the table is exactly the 13-entry placement table, with every DWD and wetter.net address and title as written. It is built from the first ZAMG match, the KNMI addresses padded to four and titled `KMNI_` plus the four characters before `_large.gif`, the stripped title and the rewrapped forecast. The KNMI warning is printed, never raised, exactly when the count is not four. |
| Overview.DrawOverview | wetter.py:155-239 | For a well-formed table, `images` holds the path of each of the 12 image entries in table order. The 13 subplots lie on distinct cells of the 5 x 3 grid with their entries' titles, the text cell shows the forecast, and every other cell draws its own entry's file through the reader its id calls for. The composite is named from the render timestamp. |
| Overview.PageDownloadsDistinct | wetter.py:157-183 | For the table a run builds from its pages, the 12 downloaded files have pairwise distinct paths. |
| Overview.CreateOverviewMap | wetter.py:88-239 | Has the same failure cases. On success the table is the one `CollectTable` gives. `images` holds, in table order, the path of each of the 12 image entries, and those paths are pairwise distinct. The 13 subplots lie on distinct cells of the 5 x 3 grid, the text cell shows the stripped title and the rewrapped forecast, and every other cell draws its own entry's file. The composite is written under the image directory with the render timestamp. |

## Left out

- Network access (`urllib` requests and reads), writing the image files, and
  rendering with matplotlib and PIL are left out. The model keeps which file each
  image goes to and what each subplot shows.
- The `sched` loop in `main` is left out: `mktime`, `enterabs` and sleeping until
  each run. Daylight-saving time and calendar arithmetic are out too, since a
  time is `24 * day + hour`. The `times_to_run[0]` printout on an empty schedule
  is not modelled.
- `datetime.now()`, `today()` and `time.strftime` are parameters and are not read.
- Schedule.GenTimesToRun: one `Clock` value stands for both the `datetime.now().hour`
  and the `datetime.today()` reads. When the two reads fall on either side of
  midnight, the source combines the hour of one day with the date of the next;
  the model always uses one instant.
- Schedule.GenTimesToRun: Python's `datetime` range is not modelled. The source
  raises `OverflowError` when `timedelta(days=...)` exceeds 999999999 days, or
  when the end time passes 31 December 9999, for example `stop = "in 3000000 days"`.
  The model has no year bound and returns the full schedule for such counts.
- The unused `cur_yr`, `cur_month`, `cur_day` and `cur_day_1..3` strings are left
  out. So is the `cur_row += 1` at the end of the drawing loop's body. It has no
  effect, because the next iteration sets `cur_row` again from the table.
- Console output is left out. This covers the progress `print`s, the
  `No match!!` lines before the raises at wetter.py:274 and 285, and the KNMI
  count warning (wetter.py:355-361). The warning is kept as a flag only on success.
  On the empty-list path the source prints the warning and then raises
  `IndexError` at `[-1]` (wetter.py:127). The model returns only the error there.
- General regular expressions are left out. The `findall` results for the ZAMG,
  wetter.net and KNMI patterns are inputs. Only the two schedule searches and the
  rewrap pattern are modelled character by character.
- UTF-8 decoding of the matched bytes is left out: matches are given as decoded
  strings.
- `html.parser.HTMLParser().unescape` is the `unescape` parameter. Python's `\w`
  Unicode word class is the `isWord` parameter. `str.isspace` is written out for
  the code points Python counts as whitespace.
- Schedule.GenTimesToRun: the loop that never ends for a zero hour step with a
  positive day count is returned as the `NeverEnds` error instead of running forever.
- Knmi.Url: the `%s` template is modelled as its prefix, the id and its suffix,
  because the id is substituted for the only `%s` in it.
- Overview.Table: its own contract states only the length; the placement facts are
  the lemmas `TableInfoBox`, `TableInGrid`, `TableCellsDistinct`, `TableIdsDistinct`
  and `TableSources`.
- Rewrap.MatchAt: its own contract states only soundness; that the scan misses no
  match is the lemma `MatchAtFinds`.
- `os.path.join` is modelled for POSIX separators only.
