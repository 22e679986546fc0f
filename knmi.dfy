/** The KNMI padded list: `find_cur_KMNI`'s count check, the padding of the id list to
    four entries, the address template and the cell title. */
module Knmi {
  import opened Wrappers
  import opened Text

  /** One analysis map and three prediction maps. */
  const ExpectedMaps: nat := 4

  /** The address template `...weerkaarten/%s_large.gif`, split at its one `%s`. */
  const UrlPrefix: string := "http://cdn.knmi.nl/knmi/map/page/weer/waarschuwingen_verwachtingen/weerkaarten/"
  const UrlSuffix: string := "_large.gif"

  function Max(a: nat, b: nat): nat {
    if a < b then b else a
  }

  /** What `find_cur_KMNI` hands back: the ids as found, and whether it printed its
      warning that the count is not four. */
  datatype Found = Found(ids: seq<string>, warned: bool)

  /** `find_cur_KMNI` with the matches of its pattern passed in: a count other than four
      is reported, never raised, and the list is not changed. */
  function FindCurKnmi(matches: seq<string>): (r: Found)
    ensures r.ids == matches
    ensures r.warned <==> |matches| != ExpectedMaps
  {
    Found(matches, |matches| != ExpectedMaps)
  }

  /** The `while len(ids) < 4: ids.append(ids[-1])` loop; `ids[-1]` of an empty list
      raises `IndexError` before the loop. */
  method PadToFour(ids: seq<string>) returns (r: Result<seq<string>, Error>)
    ensures r.Failure? <==> ids == []
    ensures r.Failure? ==> r.error == IndexError
    ensures r.Success? ==> |r.value| == Max(ExpectedMaps, |ids|)
    ensures r.Success? ==> r.value[..|ids|] == ids
    ensures r.Success? ==> forall k :: |ids| <= k < |r.value| ==> r.value[k] == ids[|ids| - 1]
  {
    if |ids| == 0 {
      return Failure(IndexError);
    }
    var tmp := ids[|ids| - 1];
    var padded := ids;
    while |padded| < ExpectedMaps
      invariant |ids| <= |padded| <= Max(ExpectedMaps, |ids|)
      invariant padded[..|ids|] == ids
      invariant forall k :: |ids| <= k < |padded| ==> padded[k] == tmp
    {
      padded := padded + [tmp];
    }
    return Success(padded);
  }

  /** `base_url_kmni % id`: the template with the id in place of `%s`. */
  function Url(id: string): string {
    UrlPrefix + id + UrlSuffix
  }

  /** The id a KNMI address was built from. */
  function IdOf(url: string): string
    requires |UrlPrefix| + |UrlSuffix| <= |url|
  {
    url[|UrlPrefix|..|url| - |UrlSuffix|]
  }

  /** The template substitution loses nothing: the id comes back out of the address,
      so distinct ids give distinct addresses. */
  lemma UrlRoundTrip(id: string)
    ensures |UrlPrefix| + |UrlSuffix| <= |Url(id)|
    ensures IdOf(Url(id)) == id
    ensures forall other :: Url(other) == Url(id) ==> other == id
  {
    forall other | Url(other) == Url(id) ensures other == id {
      assert IdOf(Url(other)) == other;
    }
  }

  /** The loop that fills `knmi_urls`. */
  method BuildUrls(ids: seq<string>) returns (urls: seq<string>)
    ensures |urls| == |ids|
    ensures forall k :: 0 <= k < |ids| ==> urls[k] == Url(ids[k])
  {
    urls := [];
    for i := 0 to |ids|
      invariant |urls| == i
      invariant forall k :: 0 <= k < i ==> urls[k] == Url(ids[k])
    {
      urls := urls + [Url(ids[i])];
    }
  }

  /** The cell title `'KMNI_' + url[-14:-10]`. */
  function Title(url: string): string {
    "KMNI_" + PySlice(url, -14, -10)
  }

  /** For a KNMI address, the title shows the last four characters before `_large.gif`:
      the id's last four when it has that many. */
  lemma TitleOfUrl(id: string)
    ensures Title(Url(id)) == "KMNI_" + (UrlPrefix + id)[|UrlPrefix| + |id| - 4..]
    ensures |id| >= 4 ==> Title(Url(id)) == "KMNI_" + id[|id| - 4..]
  {
    var u := Url(id);
    assert u == (UrlPrefix + id) + UrlSuffix;
    assert PySlice(u, -14, -10) == u[|u| - 14..|u| - 10];
    assert u[|u| - 14..|u| - 10] == (UrlPrefix + id)[|UrlPrefix| + |id| - 4..];
    if |id| >= 4 {
      assert (UrlPrefix + id)[|UrlPrefix| + |id| - 4..] == id[|id| - 4..];
    }
  }
}
