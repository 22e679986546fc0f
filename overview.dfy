/** `create_grosswetterlage_overview_map` without its downloads, file writes and drawing:
    the placement table, the per-image file names, the list of downloaded files and the
    index shift that finds each cell's file, on a `GridSpec(5, 3)`. */
module Overview {
  import opened Wrappers
  import opened Text
  import Extract
  import Knmi
  import Rewrap

  const DwdUrl: string := "http://www.dwd.de/DWD/wetter/wv_spez/hobbymet/wetterkarten/bwk_bodendruck_na_ana.png"
  const DwdUrl24: string := "http://www.dwd.de/DWD/wetter/wv_spez/hobbymet/wetterkarten/ico_tkboden_na_024.png"
  const DwdUrl36: string := "http://www.dwd.de/DWD/wetter/wv_spez/hobbymet/wetterkarten/ico_tkboden_na_036.png"
  const DwdUrl48: string := "http://www.dwd.de/DWD/wetter/wv_spez/hobbymet/wetterkarten/ico_tkboden_na_048.png"
  const DwdUrl84: string := "http://www.dwd.de/DWD/wetter/wv_spez/hobbymet/wetterkarten/ico_tkboden_na_084.png"
  const DwdUrl108: string := "http://www.dwd.de/DWD/wetter/wv_spez/hobbymet/wetterkarten/ico_tkboden_na_108.png"
  const WetterNetUrl: string := "http://www.wetter.net/images/kontinente/Europa-600.jpg"

  /** The text entry: it is drawn from its text and has no downloaded file. */
  const InfoBoxId: string := "infoBox"
  const InfoBoxIndex: nat := 4
  const GridRows: nat := 5
  const GridColumns: nat := 3

  /** One tuple of `dict_of_urls`: id, address (for the text entry: the forecast text),
      title, column and row. */
  datatype Entry = Entry(id: string, content: string, title: string, column: int, row: int)

  predicate IsInfoBox(e: Entry) {
    e.id == InfoBoxId
  }

  /** `dict_of_urls`, given the resolved ZAMG address, the KNMI addresses and the forecast. */
  function Table(zamgUrl: string, knmiUrls: seq<string>, title: string, prognose: string): (t: seq<Entry>)
    requires |knmiUrls| >= Knmi.ExpectedMaps
    ensures |t| == 13
  {
    [ Entry("dwd", DwdUrl, "DWD", 0, 0)
    , Entry("zamg", zamgUrl, "ZAMG", 0, 1)
    , Entry("KNMI_AL", knmiUrls[0], Knmi.Title(knmiUrls[0]), 0, 2)
    , Entry("wetter.net", WetterNetUrl, "wetter.net", 0, 3)
    , Entry(InfoBoxId, prognose, title, 0, 4)
    , Entry("KNMI_PL_0", knmiUrls[1], Knmi.Title(knmiUrls[1]), 1, 0)
    , Entry("KNMI_PL_1", knmiUrls[2], Knmi.Title(knmiUrls[2]), 1, 1)
    , Entry("KNMI_PL_2", knmiUrls[3], Knmi.Title(knmiUrls[3]), 1, 2)
    , Entry("dwd24", DwdUrl24, "DWD +24H", 2, 0)
    , Entry("dwd36", DwdUrl36, "DWD +36H", 2, 1)
    , Entry("dwd48", DwdUrl48, "DWD +48H", 2, 2)
    , Entry("dwd84", DwdUrl84, "DWD +84H", 2, 3)
    , Entry("dwd108", DwdUrl108, "DWD +108H", 2, 4)
    ]
  }

  /** The text entry sits at index 4 and nowhere else, and carries the forecast. */
  lemma TableInfoBox(zamgUrl: string, knmiUrls: seq<string>, title: string, prognose: string)
    requires |knmiUrls| >= Knmi.ExpectedMaps
    ensures var t := Table(zamgUrl, knmiUrls, title, prognose);
      && IsInfoBox(t[InfoBoxIndex]) && t[InfoBoxIndex].content == prognose && t[InfoBoxIndex].title == title
      && forall k :: 0 <= k < |t| && k != InfoBoxIndex ==> !IsInfoBox(t[k])
  {
  }

  /** Every entry names a cell inside the 5 x 3 grid. */
  lemma TableInGrid(zamgUrl: string, knmiUrls: seq<string>, title: string, prognose: string)
    requires |knmiUrls| >= Knmi.ExpectedMaps
    ensures var t := Table(zamgUrl, knmiUrls, title, prognose);
      forall k :: 0 <= k < |t| ==> 0 <= t[k].row < GridRows && 0 <= t[k].column < GridColumns
  {
  }

  /** A cell's place in column-major order on the grid. */
  function CellKey(e: Entry): int {
    e.column * GridRows + e.row
  }

  /** Keys that increase from each element to the next increase throughout. */
  lemma {:induction false} IncreasingKeys(t: seq<Entry>, a: nat, b: nat)
    requires forall k :: 0 <= k < |t| - 1 ==> CellKey(t[k]) < CellKey(t[k + 1])
    requires a < b < |t|
    decreases b - a
    ensures CellKey(t[a]) < CellKey(t[b])
  {
    if a + 1 < b {
      IncreasingKeys(t, a + 1, b);
    }
  }

  /** No two entries name the same cell: the table lists the cells in column-major order. */
  lemma TableCellsDistinct(zamgUrl: string, knmiUrls: seq<string>, title: string, prognose: string)
    requires |knmiUrls| >= Knmi.ExpectedMaps
    ensures var t := Table(zamgUrl, knmiUrls, title, prognose);
      forall a, b :: 0 <= a < b < |t| ==> t[a].row != t[b].row || t[a].column != t[b].column
  {
    var t := Table(zamgUrl, knmiUrls, title, prognose);
    assert forall k :: 0 <= k < |t| - 1 ==> CellKey(t[k]) < CellKey(t[k + 1]);
    forall a, b | 0 <= a < b < |t| ensures t[a].row != t[b].row || t[a].column != t[b].column {
      IncreasingKeys(t, a, b);
    }
  }

  /** Every entry has an id of its own, so no two share a file. */
  lemma TableIdsDistinct(zamgUrl: string, knmiUrls: seq<string>, title: string, prognose: string)
    requires |knmiUrls| >= Knmi.ExpectedMaps
    ensures var t := Table(zamgUrl, knmiUrls, title, prognose);
      forall a, b :: 0 <= a < b < |t| ==> t[a].id != t[b].id
  {
  }

  /** The ZAMG entry shows the resolved address; the four KNMI entries (index 2, then
      5 to 7) show the four KNMI addresses in order, titled from the address. */
  lemma TableSources(zamgUrl: string, knmiUrls: seq<string>, title: string, prognose: string)
    requires |knmiUrls| >= Knmi.ExpectedMaps
    ensures var t := Table(zamgUrl, knmiUrls, title, prognose);
      && t[1].content == zamgUrl
      && forall k :: 0 <= k < 4 ==>
           var e := t[if k == 0 then 2 else k + 4];
           e.content == knmiUrls[k] && e.title == Knmi.Title(knmiUrls[k])
  {
  }

  /** The extension: `'gif'` for an id starting with `KNMI`, else the address's last three. */
  function Extension(e: Entry): string {
    if PySlice(e.id, 0, 4) == "KNMI" then "gif" else PySlice(e.content, -3, |e.content|)
  }

  /** The image file name; with `save_individual_imgs` it carries the run's timestamp. */
  function FileName(e: Entry, timestamp: string, saveIndividual: bool): string {
    if saveIndividual then "img_" + timestamp + "_" + e.id + "." + Extension(e)
    else "img_" + e.id + "." + Extension(e)
  }

  /** POSIX `os.path.join(dir, name)`. */
  function JoinPath(dir: string, name: string): string {
    if |name| > 0 && name[0] == '/' then name
    else if dir == [] || dir[|dir| - 1] == '/' then dir + name
    else dir + "/" + name
  }

  function ImagePath(e: Entry, dir: string, timestamp: string, saveIndividual: bool): string {
    JoinPath(dir, FileName(e, timestamp, saveIndividual))
  }

  /** The extension rule: KNMI entries are GIFs, every other entry keeps the type its
      address ends in; a name has the timestamp exactly when images are kept per run. */
  lemma FileNameRule(e: Entry, timestamp: string, saveIndividual: bool)
    ensures |e.id| >= 4 && e.id[..4] == "KNMI" ==> Extension(e) == "gif"
    ensures !(|e.id| >= 4 && e.id[..4] == "KNMI") && |e.content| >= 3 ==>
      Extension(e) == e.content[|e.content| - 3..]
    ensures var pre := if saveIndividual then "img_" + timestamp + "_" else "img_";
      FileName(e, timestamp, saveIndividual) == pre + e.id + "." + Extension(e)
  {
    if |e.id| >= 4 {
      assert PySlice(e.id, 0, 4) == e.id[..4];
    } else {
      assert |PySlice(e.id, 0, 4)| < 4;
    }
    if |e.content| >= 3 {
      assert PySlice(e.content, -3, |e.content|) == e.content[|e.content| - 3..];
    }
  }

  /** Two entries with distinct ids and three-letter extensions never share a file. */
  lemma FileNamesDistinct(a: Entry, b: Entry, dir: string, timestamp: string, saveIndividual: bool)
    requires a.id != b.id && |Extension(a)| == 3 && |Extension(b)| == 3
    ensures ImagePath(a, dir, timestamp, saveIndividual) != ImagePath(b, dir, timestamp, saveIndividual)
  {
    var pre := if saveIndividual then "img_" + timestamp + "_" else "img_";
    var na, nb := FileName(a, timestamp, saveIndividual), FileName(b, timestamp, saveIndividual);
    assert na == pre + a.id + ("." + Extension(a)) by {
      FileNameRule(a, timestamp, saveIndividual);
    }
    assert nb == pre + b.id + ("." + Extension(b)) by {
      FileNameRule(b, timestamp, saveIndividual);
    }
    assert na != nb by {
      NamesDiffer(pre, a.id, b.id, "." + Extension(a), "." + Extension(b));
    }
    assert na[0] == 'i' && nb[0] == 'i';
    JoinPathInjective(dir, na, nb);
  }

  /** Two different strings of which one is not a prefix of the other: they differ at
      some index both reach. */
  lemma DifferAt(x: string, y: string) returns (i: nat)
    requires x != y && |x| == |y|
    ensures i < |x| && x[i] != y[i]
  {
    i := 0;
    while i < |x| && x[i] == y[i]
      invariant i <= |x| && x[..i] == y[..i]
    {
      i := i + 1;
    }
  }

  /** A shared prefix and same-length suffixes keep distinct middles apart. */
  lemma NamesDiffer(pre: string, x: string, y: string, ex: string, ey: string)
    requires x != y && |ex| == |ey|
    ensures pre + x + ex != pre + y + ey
  {
    if |x| == |y| {
      var i := DifferAt(x, y);
      assert (pre + x + ex)[|pre| + i] == x[i];
      assert (pre + y + ey)[|pre| + i] == y[i];
    } else {
      assert |pre + x + ex| != |pre + y + ey|;
    }
  }

  lemma JoinPathInjective(dir: string, n1: string, n2: string)
    requires |n1| > 0 && n1[0] != '/' && |n2| > 0 && n2[0] != '/' && n1 != n2
    ensures JoinPath(dir, n1) != JoinPath(dir, n2)
  {
    var sep := if dir == [] || dir[|dir| - 1] == '/' then dir else dir + "/";
    assert JoinPath(dir, n1) == sep + n1 && JoinPath(dir, n2) == sep + n2;
    NamesDiffer(sep, n1, n2, [], []);
    assert sep + n1 + [] == sep + n1 && sep + n2 + [] == sep + n2;
  }

  /** The entries that get a downloaded file, in table order: all but the text entry. */
  function Downloaded(entries: seq<Entry>): (d: seq<Entry>)
    ensures |d| <= |entries|
  {
    if entries == [] then []
    else
      var last := entries[|entries| - 1];
      Downloaded(entries[..|entries| - 1]) + (if IsInfoBox(last) then [] else [last])
  }

  /** No text entry is ever downloaded. */
  lemma {:induction false} DownloadedHasNoText(entries: seq<Entry>)
    ensures forall k :: 0 <= k < |Downloaded(entries)| ==> !IsInfoBox(Downloaded(entries)[k])
  {
    if entries != [] {
      DownloadedHasNoText(entries[..|entries| - 1]);
    }
  }

  lemma {:induction false} DownloadedAppend(a: seq<Entry>, b: seq<Entry>)
    decreases |b|
    ensures Downloaded(a + b) == Downloaded(a) + Downloaded(b)
  {
    if b == [] {
      assert a + b == a;
    } else {
      var b' := b[..|b| - 1];
      assert (a + b)[..|a + b| - 1] == a + b';
      DownloadedAppend(a, b');
    }
  }

  lemma {:induction false} DownloadedKeepsImages(s: seq<Entry>)
    requires forall k :: 0 <= k < |s| ==> !IsInfoBox(s[k])
    ensures Downloaded(s) == s
  {
    if s != [] {
      DownloadedKeepsImages(s[..|s| - 1]);
    }
  }

  /** Taking the one text entry out of a list of images. */
  lemma DownloadedDropsOne(front: seq<Entry>, x: Entry, back: seq<Entry>)
    requires forall k :: 0 <= k < |front| ==> !IsInfoBox(front[k])
    requires forall k :: 0 <= k < |back| ==> !IsInfoBox(back[k])
    requires IsInfoBox(x)
    ensures Downloaded(front + [x] + back) == front + back
  {
    assert Downloaded(front + [x] + back) == Downloaded(front + [x]) + Downloaded(back) by {
      DownloadedAppend(front + [x], back);
    }
    assert Downloaded(front + [x]) == front by {
      assert (front + [x])[..|front|] == front;
      DownloadedKeepsImages(front);
    }
    assert Downloaded(back) == back by {
      DownloadedKeepsImages(back);
    }
  }

  lemma SplitAt<T>(s: seq<T>, i: nat)
    requires i < |s|
    ensures s == s[..i] + [s[i]] + s[i + 1..]
  {
  }

  /** With the text entry at index 4 and nowhere else, the downloaded list is the table
      with that entry taken out. */
  lemma DownloadedSkipsInfoBox(entries: seq<Entry>)
    requires |entries| > InfoBoxIndex && IsInfoBox(entries[InfoBoxIndex])
    requires forall k :: 0 <= k < |entries| && k != InfoBoxIndex ==> !IsInfoBox(entries[k])
    ensures Downloaded(entries) == entries[..InfoBoxIndex] + entries[InfoBoxIndex + 1..]
  {
    var front, back := entries[..InfoBoxIndex], entries[InfoBoxIndex + 1..];
    var x := entries[InfoBoxIndex];
    forall k | 0 <= k < |back| ensures !IsInfoBox(back[k]) {
      assert back[k] == entries[InfoBoxIndex + 1 + k];
    }
    calc {
      Downloaded(entries);
      { SplitAt(entries, InfoBoxIndex); }
      Downloaded(front + [x] + back);
      { DownloadedDropsOne(front, x, back); }
      front + back;
    }
  }

  /** The index into `tmp_lst_imgs` after the shift past the text entry. */
  function ShiftIndex(i: nat): nat {
    if i > InfoBoxIndex then i - 1 else i
  }

  /** The index shift is right: every entry other than the text entry finds its own file. */
  lemma ShiftSelectsOwnImage(entries: seq<Entry>)
    requires |entries| > InfoBoxIndex && IsInfoBox(entries[InfoBoxIndex])
    requires forall k :: 0 <= k < |entries| && k != InfoBoxIndex ==> !IsInfoBox(entries[k])
    ensures |Downloaded(entries)| == |entries| - 1
    ensures forall i :: 0 <= i < |entries| && i != InfoBoxIndex ==>
      ShiftIndex(i) < |Downloaded(entries)| && Downloaded(entries)[ShiftIndex(i)] == entries[i]
  {
    DownloadedSkipsInfoBox(entries);
  }

  /** The download loop without the download: the file each image entry is written to. */
  method DownloadImages(entries: seq<Entry>, imgPath: string, timestamp: string, saveIndividual: bool)
    returns (paths: seq<string>)
    ensures |paths| == |Downloaded(entries)|
    ensures forall k :: 0 <= k < |paths| ==>
      paths[k] == ImagePath(Downloaded(entries)[k], imgPath, timestamp, saveIndividual)
  {
    paths := [];
    for i := 0 to |entries|
      invariant |paths| == |Downloaded(entries[..i])|
      invariant forall k :: 0 <= k < |paths| ==>
        paths[k] == ImagePath(Downloaded(entries[..i])[k], imgPath, timestamp, saveIndividual)
    {
      assert entries[..i + 1][..i] == entries[..i];
      var e := entries[i];
      if e.id == InfoBoxId {
        continue;
      }
      var picString := FileName(e, timestamp, saveIndividual);
      paths := paths + [JoinPath(imgPath, picString)];
    }
    assert entries[..|entries|] == entries;
  }

  /** Which library reads an image cell's file. */
  datatype Reader = PyplotImread | PilOpen

  datatype Content = Picture(reader: Reader, path: string) | TextBlock(text: string)

  /** One subplot: its grid cell, its title and what is drawn in it. */
  datatype Cell = Cell(row: nat, column: nat, title: string, content: Content)

  const PyplotIds: seq<string> := ["wetter.net", "KNMI_AL", "KNMI_PL_0", "KNMI_PL_1", "KNMI_PL_2"]
  const PilIds: seq<string> := ["dwd", "dwd24", "dwd36", "dwd48", "dwd84"]

  /** The ids drawn through PIL and numpy; every other image goes through `plt.imread`. */
  function ReaderFor(id: string): Reader {
    if id in PyplotIds then PyplotImread else if id in PilIds then PilOpen else PyplotImread
  }

  /** `outer_grid[k]` along an axis of n cells: negative indices count from the end. */
  function GridIndex(k: int, n: nat): (r: Option<nat>)
    ensures r.Some? ==> r.value < n
    ensures 0 <= k < n ==> r == Some(k)
    ensures -(n as int) <= k < 0 ==> r == Some(k + n)
    ensures r.None? <==> !(-(n as int) <= k < n)
  {
    if 0 <= k < n then Some(k) else if 0 <= k + n && k < 0 then Some(k + n) else None
  }

  /** Entry i can be drawn: its cell lies in the grid and, for an image, the shifted
      index lies inside the list of files. */
  predicate Placeable(e: Entry, i: nat, paths: seq<string>) {
    && GridIndex(e.row, GridRows).Some?
    && GridIndex(e.column, GridColumns).Some?
    && (IsInfoBox(e) || ShiftIndex(i) < |paths|)
  }

  function CellFor(e: Entry, i: nat, paths: seq<string>): Cell
    requires Placeable(e, i, paths)
  {
    Cell(GridIndex(e.row, GridRows).value, GridIndex(e.column, GridColumns).value, e.title,
         if IsInfoBox(e) then TextBlock(e.content) else Picture(ReaderFor(e.id), paths[ShiftIndex(i)]))
  }

  /** The drawing loop over `enumerate(dict_of_urls)`, with `cur_map_id` shifted past the
      text entry; an index outside the grid or the file list raises `IndexError`. */
  method PlaceCells(entries: seq<Entry>, paths: seq<string>) returns (r: Result<seq<Cell>, Error>)
    ensures r.Success? <==> forall i :: 0 <= i < |entries| ==> Placeable(entries[i], i, paths)
    ensures r.Failure? ==> r.error == IndexError
    ensures r.Success? ==> |r.value| == |entries|
    ensures r.Success? ==> forall i :: 0 <= i < |entries| ==> r.value[i] == CellFor(entries[i], i, paths)
  {
    var cells: seq<Cell> := [];
    for i := 0 to |entries|
      invariant |cells| == i
      invariant forall k :: 0 <= k < i ==> Placeable(entries[k], k, paths) && cells[k] == CellFor(entries[k], k, paths)
    {
      var e := entries[i];
      var curRow := GridIndex(e.row, GridRows);
      var curColumn := GridIndex(e.column, GridColumns);
      if curRow.None? || curColumn.None? {
        return Failure(IndexError);
      }
      var curMapId := i;
      if curMapId > InfoBoxIndex {
        curMapId := curMapId - 1;
      }
      var content: Content;
      if e.id in PyplotIds {
        if curMapId >= |paths| { return Failure(IndexError); }
        content := Picture(PyplotImread, paths[curMapId]);
      } else if e.id in PilIds {
        if curMapId >= |paths| { return Failure(IndexError); }
        content := Picture(PilOpen, paths[curMapId]);
      } else if e.id == InfoBoxId {
        content := TextBlock(e.content);
      } else {
        if curMapId >= |paths| { return Failure(IndexError); }
        content := Picture(PyplotImread, paths[curMapId]);
      }
      cells := cells + [Cell(curRow.value, curColumn.value, e.title, content)];
    }
    return Success(cells);
  }

  /** The pages of one run, reduced to what the patterns found on them. */
  datatype Pages = Pages(zamg: seq<(string, string)>, gwlTitle: seq<string>, gwlPrognose: seq<string>,
                         knmi: seq<string>)

  /** What one run produces: the table, the files the images go to, the subplots, the
      composite's file name and whether the KNMI count warning was printed. */
  datatype Run = Run(entries: seq<Entry>, images: seq<string>, cells: seq<Cell>, figure: string,
                     knmiWarning: bool)

  /** The first half of `create_grosswetterlage_overview_map`: the ZAMG address, the
      forecast and the KNMI list, gathered into the 13-entry table, and whether the KNMI
      count warning was printed. */
  method CollectTable(pages: Pages, unescape: string -> string, isWord: char -> bool)
    returns (r: Result<(seq<Entry>, bool), Error>)
    ensures r.Failure? <==> pages.zamg == [] || pages.gwlTitle == [] || pages.gwlPrognose == [] || pages.knmi == []
    ensures pages.zamg == [] ==> r == Failure(IndexError)
    ensures pages.zamg != [] && (pages.gwlTitle == [] || pages.gwlPrognose == []) ==> r == Failure(NoMatch)
    ensures pages.zamg != [] && pages.gwlTitle != [] && pages.gwlPrognose != [] && pages.knmi == [] ==>
      r == Failure(IndexError)
    ensures r.Success? ==> WellFormedTable(r.value.0) && TableFromPages(r.value.0, pages, unescape, isWord)
    ensures r.Success? ==> r.value.1 == (|pages.knmi| != Knmi.ExpectedMaps)
  {
    var zamg := Extract.FindCurZamg(pages.zamg);
    if zamg.Failure? {
      return Failure(zamg.error);
    }
    var gwl := Extract.GwlString(pages.gwlTitle, pages.gwlPrognose, unescape, isWord);
    if gwl.Failure? {
      return Failure(gwl.error);
    }
    var (title, prognose) := gwl.value;
    var found := Knmi.FindCurKnmi(pages.knmi);
    var padded := Knmi.PadToFour(found.ids);
    if padded.Failure? {
      return Failure(padded.error);
    }
    var knmiUrls := Knmi.BuildUrls(padded.value);
    PaddedUrls(found.ids, padded.value, knmiUrls);
    var entries := Table(zamg.value.0, knmiUrls, title, prognose);
    TableWellFormed(zamg.value.0, knmiUrls, title, prognose);
    TableInfoBox(zamg.value.0, knmiUrls, title, prognose);
    TableSources(zamg.value.0, knmiUrls, title, prognose);
    KnmiCells(zamg.value.0, knmiUrls, title, prognose, pages.knmi);
    return Success((entries, found.warned));
  }

  /** The second half of `create_grosswetterlage_overview_map`, with `timestamp` and
      `renderStamp` the two `strftime` readings (file names, then the composite's name). */
  method CreateOverviewMap(imgPath: string, saveIndividual: bool, timestamp: string, renderStamp: string,
                           pages: Pages, unescape: string -> string, isWord: char -> bool)
    returns (r: Result<Run, Error>)
    ensures r.Failure? <==> pages.zamg == [] || pages.gwlTitle == [] || pages.gwlPrognose == [] || pages.knmi == []
    ensures pages.zamg == [] ==> r == Failure(IndexError)
    ensures pages.zamg != [] && (pages.gwlTitle == [] || pages.gwlPrognose == []) ==> r == Failure(NoMatch)
    ensures pages.zamg != [] && pages.gwlTitle != [] && pages.gwlPrognose != [] && pages.knmi == [] ==>
      r == Failure(IndexError)
    ensures r.Success? ==> ValidRun(r.value, imgPath, saveIndividual, timestamp, renderStamp, pages, unescape, isWord)
  {
    var collected := CollectTable(pages, unescape, isWord);
    if collected.Failure? {
      return Failure(collected.error);
    }
    var (entries, warned) := collected.value;
    var m := DrawOverview(entries, warned, imgPath, saveIndividual, timestamp, renderStamp);
    PageDownloadsDistinct(entries, m.images, pages, unescape, isWord, imgPath, timestamp, saveIndividual);
    return Success(m);
  }

  /** The loading and drawing half of a run, for a well-formed table: the file of each
      image entry, the 13 subplots and the composite's file name. */
  method DrawOverview(entries: seq<Entry>, warned: bool, imgPath: string, saveIndividual: bool, timestamp: string,
                      renderStamp: string)
    returns (m: Run)
    requires WellFormedTable(entries)
    ensures m.entries == entries && m.knmiWarning == warned
    ensures DrawnFrom(m, imgPath, saveIndividual, timestamp, renderStamp)
  {
    var images := DownloadImages(entries, imgPath, timestamp, saveIndividual);
    ImagesOfEntries(entries, images, imgPath, timestamp, saveIndividual);
    PlaceableTable(entries, images);
    var cells := PlaceCells(entries, images);
    CellsOfTable(entries, images, cells.value, imgPath, timestamp, saveIndividual);
    var figure := JoinPath(imgPath, "_grosswetterlage_overview_" + renderStamp + ".png");
    m := Run(entries, images, cells.value, figure, warned);
  }

  /** The shape of `dict_of_urls`: 13 entries, the text entry at index 4 and nowhere else,
      each entry on a cell of its own inside the 5 x 3 grid, and no two ids alike. */
  ghost predicate WellFormedTable(t: seq<Entry>) {
    && |t| == 13
    && IsInfoBox(t[InfoBoxIndex])
    && (forall k :: 0 <= k < 13 && k != InfoBoxIndex ==> !IsInfoBox(t[k]))
    && (forall k :: 0 <= k < 13 ==> 0 <= t[k].row < GridRows && 0 <= t[k].column < GridColumns)
    && (forall a, b :: 0 <= a < b < 13 ==> t[a].row != t[b].row || t[a].column != t[b].column)
    && forall a, b :: 0 <= a < b < 13 ==> t[a].id != t[b].id
  }

  /** What the table took from the pages: it is the placement table built from the ZAMG
      address, the KNMI ids padded to four, the stripped title and the rewrapped
      forecast. */
  ghost predicate TableFromPages(t: seq<Entry>, pages: Pages, unescape: string -> string, isWord: char -> bool)
    requires |t| == 13
    requires pages.zamg != [] && pages.gwlTitle != [] && pages.gwlPrognose != [] && pages.knmi != []
  {
    && t == Table(pages.zamg[0].0, KnmiAddresses(pages.knmi), Strip(unescape(pages.gwlTitle[0])),
                  Rewrap.Rewrap(Strip(unescape(pages.gwlPrognose[0])), isWord))
    && t[1].content == pages.zamg[0].0
    && t[InfoBoxIndex].title == Strip(unescape(pages.gwlTitle[0]))
    && t[InfoBoxIndex].content == Rewrap.Rewrap(Strip(unescape(pages.gwlPrognose[0])), isWord)
    && KnmiFromPage(t, pages.knmi)
  }

  lemma TableWellFormed(zamgUrl: string, knmiUrls: seq<string>, title: string, prognose: string)
    requires |knmiUrls| >= Knmi.ExpectedMaps
    ensures WellFormedTable(Table(zamgUrl, knmiUrls, title, prognose))
  {
    TableInfoBox(zamgUrl, knmiUrls, title, prognose);
    TableInGrid(zamgUrl, knmiUrls, title, prognose);
    TableCellsDistinct(zamgUrl, knmiUrls, title, prognose);
    TableIdsDistinct(zamgUrl, knmiUrls, title, prognose);
  }

  /** The padded KNMI list seen through the address template: the page's ids in order,
      the last one repeated up to four. */
  lemma PaddedUrls(ids: seq<string>, padded: seq<string>, urls: seq<string>)
    requires ids != [] && |padded| == Knmi.Max(Knmi.ExpectedMaps, |ids|) && padded[..|ids|] == ids
    requires forall k :: |ids| <= k < |padded| ==> padded[k] == ids[|ids| - 1]
    requires |urls| == |padded| && forall k :: 0 <= k < |padded| ==> urls[k] == Knmi.Url(padded[k])
    ensures |urls| >= Knmi.ExpectedMaps
    ensures forall k :: 0 <= k < Knmi.ExpectedMaps ==>
      urls[k] == Knmi.Url(if k < |ids| then ids[k] else ids[|ids| - 1])
    ensures urls == KnmiAddresses(ids)
  {
    forall k | 0 <= k < |urls|
      ensures urls[k] == Knmi.Url(if k < |ids| then ids[k] else ids[|ids| - 1])
    {
      if k < |ids| {
        assert padded[..|ids|][k] == padded[k];
      }
    }
  }

  /** The KNMI addresses a page's ids lead to: one per id, the last one repeated up to
      four. */
  function KnmiAddresses(ids: seq<string>): (urls: seq<string>)
    requires ids != []
    ensures |urls| >= Knmi.ExpectedMaps
  {
    seq(Knmi.Max(Knmi.ExpectedMaps, |ids|),
        k requires 0 <= k => Knmi.Url(if k < |ids| then ids[k] else ids[|ids| - 1]))
  }

  /** The table built from the padded addresses shows the page's KNMI ids. */
  lemma KnmiCells(zamgUrl: string, knmiUrls: seq<string>, title: string, prognose: string, ids: seq<string>)
    requires ids != [] && |knmiUrls| >= Knmi.ExpectedMaps
    requires forall k :: 0 <= k < Knmi.ExpectedMaps ==>
      knmiUrls[k] == Knmi.Url(if k < |ids| then ids[k] else ids[|ids| - 1])
    ensures KnmiFromPage(Table(zamgUrl, knmiUrls, title, prognose), ids)
  {
    TableSources(zamgUrl, knmiUrls, title, prognose);
  }

  /** With the text entry at index 4 only, each other entry's cell is handed the file
      that entry was downloaded to. */
  lemma ImagesOfEntries(entries: seq<Entry>, images: seq<string>, imgPath: string, timestamp: string,
                        saveIndividual: bool)
    requires WellFormedTable(entries)
    requires |images| == |Downloaded(entries)|
    requires forall k :: 0 <= k < |images| ==>
      images[k] == ImagePath(Downloaded(entries)[k], imgPath, timestamp, saveIndividual)
    ensures |images| == |entries| - 1
    ensures forall i :: 0 <= i < |entries| && i != InfoBoxIndex ==>
      ShiftIndex(i) < |images| && images[ShiftIndex(i)] == ImagePath(entries[i], imgPath, timestamp, saveIndividual)
  {
    ShiftSelectsOwnImage(entries);
  }

  /** An entry whose id starts with `KNMI`, or whose address has three characters, gets a
      three-letter extension. */
  lemma ThreeLetterExtension(e: Entry)
    requires (|e.id| >= 4 && e.id[..4] == "KNMI") || |e.content| >= 3
    ensures |Extension(e)| == 3
  {
    FileNameRule(e, "", false);
  }

  /** Entries whose ids start with different characters never share a file. */
  lemma FileNamesApart(a: Entry, b: Entry, dir: string, timestamp: string, saveIndividual: bool)
    requires |a.id| > 0 && |b.id| > 0 && a.id[0] != b.id[0]
    ensures ImagePath(a, dir, timestamp, saveIndividual) != ImagePath(b, dir, timestamp, saveIndividual)
  {
    var pre := if saveIndividual then "img_" + timestamp + "_" else "img_";
    var na, nb := FileName(a, timestamp, saveIndividual), FileName(b, timestamp, saveIndividual);
    assert na == pre + a.id + ("." + Extension(a)) by {
      FileNameRule(a, timestamp, saveIndividual);
    }
    assert nb == pre + b.id + ("." + Extension(b)) by {
      FileNameRule(b, timestamp, saveIndividual);
    }
    assert na[|pre|] == a.id[0] && nb[|pre|] == b.id[0];
    assert na[0] == 'i' && nb[0] == 'i';
    JoinPathInjective(dir, na, nb);
  }

  /** Every image entry of the table but ZAMG has a three-letter extension, and only the
      ZAMG id starts with `z`. */
  lemma TableExtensions(zamgUrl: string, knmiUrls: seq<string>, title: string, prognose: string)
    requires |knmiUrls| >= Knmi.ExpectedMaps
    ensures var t := Table(zamgUrl, knmiUrls, title, prognose);
      && t[1].id == "zamg"
      && forall k :: 0 <= k < 13 && k != 1 && k != InfoBoxIndex ==>
           |Extension(t[k])| == 3 && |t[k].id| > 0 && t[k].id[0] != 'z'
  {
    var t := Table(zamgUrl, knmiUrls, title, prognose);
    forall k | 0 <= k < 13 && k != 1 && k != InfoBoxIndex
      ensures |Extension(t[k])| == 3 && |t[k].id| > 0 && t[k].id[0] != 'z'
    {
      ThreeLetterExtension(t[k]);
    }
  }

  /** No two image entries of the table are written to the same file, so each file still
      holds its own entry's image when the drawing loop reads it. */
  lemma TableFilesDistinct(zamgUrl: string, knmiUrls: seq<string>, title: string, prognose: string,
                           dir: string, timestamp: string, saveIndividual: bool)
    requires |knmiUrls| >= Knmi.ExpectedMaps
    ensures var t := Table(zamgUrl, knmiUrls, title, prognose);
      forall i, j :: 0 <= i < j < 13 && i != InfoBoxIndex && j != InfoBoxIndex ==>
        ImagePath(t[i], dir, timestamp, saveIndividual) != ImagePath(t[j], dir, timestamp, saveIndividual)
  {
    var t := Table(zamgUrl, knmiUrls, title, prognose);
    TableIdsDistinct(zamgUrl, knmiUrls, title, prognose);
    TableExtensions(zamgUrl, knmiUrls, title, prognose);
    forall i, j | 0 <= i < j < 13 && i != InfoBoxIndex && j != InfoBoxIndex
      ensures ImagePath(t[i], dir, timestamp, saveIndividual) != ImagePath(t[j], dir, timestamp, saveIndividual)
    {
      if i == 1 || j == 1 {
        FileNamesApart(t[i], t[j], dir, timestamp, saveIndividual);
      } else {
        FileNamesDistinct(t[i], t[j], dir, timestamp, saveIndividual);
      }
    }
  }

  /** The files the download loop writes for the table are pairwise distinct. */
  lemma DownloadsDistinct(zamgUrl: string, knmiUrls: seq<string>, title: string, prognose: string,
                          images: seq<string>, dir: string, timestamp: string, saveIndividual: bool)
    requires |knmiUrls| >= Knmi.ExpectedMaps
    requires var d := Downloaded(Table(zamgUrl, knmiUrls, title, prognose));
      |images| == |d| && forall k :: 0 <= k < |images| ==> images[k] == ImagePath(d[k], dir, timestamp, saveIndividual)
    ensures |images| == 12
    ensures forall a, b :: 0 <= a < b < |images| ==> images[a] != images[b]
  {
    var t := Table(zamgUrl, knmiUrls, title, prognose);
    TableInfoBox(zamgUrl, knmiUrls, title, prognose);
    ShiftSelectsOwnImage(t);
    TableFilesDistinct(zamgUrl, knmiUrls, title, prognose, dir, timestamp, saveIndividual);
    forall a, b | 0 <= a < b < |images| ensures images[a] != images[b] {
      var i := if a < InfoBoxIndex then a else a + 1;
      var j := if b < InfoBoxIndex then b else b + 1;
      assert ShiftIndex(i) == a && ShiftIndex(j) == b;
      assert images[a] == ImagePath(t[i], dir, timestamp, saveIndividual);
      assert images[b] == ImagePath(t[j], dir, timestamp, saveIndividual);
    }
  }

  /** The same for the table a run builds from its pages. */
  lemma PageDownloadsDistinct(entries: seq<Entry>, images: seq<string>, pages: Pages, unescape: string -> string,
                              isWord: char -> bool, dir: string, timestamp: string, saveIndividual: bool)
    requires pages.zamg != [] && pages.gwlTitle != [] && pages.gwlPrognose != [] && pages.knmi != []
    requires |entries| == 13 && TableFromPages(entries, pages, unescape, isWord)
    requires |images| == |Downloaded(entries)|
    requires forall k :: 0 <= k < |images| ==> images[k] == ImagePath(Downloaded(entries)[k], dir, timestamp, saveIndividual)
    ensures forall a, b :: 0 <= a < b < |images| ==> images[a] != images[b]
  {
    DownloadsDistinct(pages.zamg[0].0, KnmiAddresses(pages.knmi), Strip(unescape(pages.gwlTitle[0])),
                      Rewrap.Rewrap(Strip(unescape(pages.gwlPrognose[0])), isWord),
                      images, dir, timestamp, saveIndividual);
  }

  /** Every entry of a 13-entry table inside the grid can be drawn from 12 files. */
  lemma PlaceableTable(t: seq<Entry>, paths: seq<string>)
    requires WellFormedTable(t) && |paths| == 12
    ensures forall i :: 0 <= i < |t| ==> Placeable(t[i], i, paths)
  {
    forall i | 0 <= i < |t| ensures Placeable(t[i], i, paths) {
      assert GridIndex(t[i].row, GridRows) == Some(t[i].row);
      assert GridIndex(t[i].column, GridColumns) == Some(t[i].column);
    }
  }

  /** The subplots drawn for a table laid out on distinct cells of the grid. */
  lemma CellsOfTable(t: seq<Entry>, paths: seq<string>, cells: seq<Cell>, imgPath: string, timestamp: string,
                     saveIndividual: bool)
    requires WellFormedTable(t) && |cells| == 13
    requires forall i :: 0 <= i < 13 ==> Placeable(t[i], i, paths) && cells[i] == CellFor(t[i], i, paths)
    requires forall i :: 0 <= i < 13 && i != InfoBoxIndex ==>
      ShiftIndex(i) < |paths| && paths[ShiftIndex(i)] == ImagePath(t[i], imgPath, timestamp, saveIndividual)
    ensures CellsLaidOut(cells)
    ensures CellsShowEntries(t, cells, imgPath, timestamp, saveIndividual)
    ensures cells[InfoBoxIndex].title == t[InfoBoxIndex].title
    ensures cells[InfoBoxIndex].content == TextBlock(t[InfoBoxIndex].content)
  {
    forall i | 0 <= i < 13 ensures cells[i].row == t[i].row && cells[i].column == t[i].column {
      assert GridIndex(t[i].row, GridRows) == Some(t[i].row);
      assert GridIndex(t[i].column, GridColumns) == Some(t[i].column);
    }
  }

  /** The 13 subplots lie on distinct cells of the 5 x 3 grid. */
  ghost predicate CellsLaidOut(cells: seq<Cell>)
    requires |cells| == 13
  {
    && (forall i :: 0 <= i < 13 ==> cells[i].row < GridRows && cells[i].column < GridColumns)
    && forall a, b :: 0 <= a < b < 13 ==> cells[a].row != cells[b].row || cells[a].column != cells[b].column
  }

  /** Each subplot carries its entry's title, and every one but the text cell draws that
      entry's own file with the reader its id calls for. */
  ghost predicate CellsShowEntries(entries: seq<Entry>, cells: seq<Cell>, imgPath: string, timestamp: string,
                                   saveIndividual: bool)
    requires |entries| == 13 && |cells| == 13
  {
    && (forall i :: 0 <= i < 13 ==> cells[i].title == entries[i].title)
    && forall i :: 0 <= i < 13 && i != InfoBoxIndex ==>
         cells[i].content
         == Picture(ReaderFor(entries[i].id), ImagePath(entries[i], imgPath, timestamp, saveIndividual))
  }

  /** The KNMI cells show the page's ids in order, the last one repeated up to four,
      each titled from its own address. */
  ghost predicate KnmiFromPage(entries: seq<Entry>, ids: seq<string>)
    requires |entries| == 13 && ids != []
  {
    forall k :: 0 <= k < 4 ==>
      var e := entries[if k == 0 then 2 else k + 4];
      && e.content == Knmi.Url(if k < |ids| then ids[k] else ids[|ids| - 1])
      && e.title == Knmi.Title(e.content)
  }

  /** What a successful run promises: the table is well formed and carries what the pages
      listed, one file is written per image entry and no two share a path, its 13
      subplots lie on distinct cells of the 5 x 3 grid, the text cell shows
      the stripped title and the rewrapped forecast, every other cell draws that entry's
      own file, and the warning is printed exactly when KNMI did not list four maps. */
  ghost predicate ValidRun(m: Run, imgPath: string, saveIndividual: bool, timestamp: string, renderStamp: string,
                           pages: Pages, unescape: string -> string, isWord: char -> bool)
    requires pages.zamg != [] && pages.gwlTitle != [] && pages.gwlPrognose != [] && pages.knmi != []
  {
    && WellFormedTable(m.entries) && TableFromPages(m.entries, pages, unescape, isWord)
    && m.knmiWarning == (|pages.knmi| != Knmi.ExpectedMaps)
    && DrawnFrom(m, imgPath, saveIndividual, timestamp, renderStamp)
    && forall a, b :: 0 <= a < b < 12 ==> m.images[a] != m.images[b]
  }

  /** What the drawing half promises for a well-formed table: one file per image entry
      in table order, 13 subplots on distinct cells of the 5 x 3 grid, the text cell
      showing the entry's title and text, every other cell drawing its own entry's file,
      and the composite named from the render timestamp. */
  ghost predicate DrawnFrom(m: Run, imgPath: string, saveIndividual: bool, timestamp: string, renderStamp: string)
    requires WellFormedTable(m.entries)
  {
    && |m.cells| == 13 && |m.images| == 12 && |Downloaded(m.entries)| == 12
    && (forall k :: 0 <= k < 12 ==>
          m.images[k] == ImagePath(Downloaded(m.entries)[k], imgPath, timestamp, saveIndividual))
    && CellsLaidOut(m.cells)
    && CellsShowEntries(m.entries, m.cells, imgPath, timestamp, saveIndividual)
    && m.cells[InfoBoxIndex].title == m.entries[InfoBoxIndex].title
    && m.cells[InfoBoxIndex].content == TextBlock(m.entries[InfoBoxIndex].content)
    && m.figure == JoinPath(imgPath, "_grosswetterlage_overview_" + renderStamp + ".png")
  }
}
