/** Pattern-extracted sources: `reFind`, `get_gwl_string` and `find_cur_ZAMG_img_url`.
    The regex engine's `findall` result is the input list of matches; HTML unescaping is
    the caller's `unescape`. */
module Extract {
  import opened Wrappers
  import opened Text
  import Rewrap

  /** `reFind`: no match raises; otherwise the first match, unescaped and stripped. */
  function ReFind(matches: seq<string>, unescape: string -> string): (r: Result<string, Error>)
    ensures r.Failure? <==> matches == []
    ensures r.Failure? ==> r.error == NoMatch
    ensures r.Success? ==> r.value == Strip(unescape(matches[0]))
  {
    if |matches| == 0 then Failure(NoMatch)
    else Success(Strip(unescape(matches[0])))
  }

  /** Only the first match matters: matches after it never change what `reFind` returns,
      and its result carries no whitespace at either end. */
  lemma ReFindFirstMatchOnly(first: string, later: seq<string>, others: seq<string>, unescape: string -> string)
    ensures ReFind([first] + later, unescape) == ReFind([first] + others, unescape)
    ensures var t := ReFind([first] + later, unescape).value;
      t != [] ==> !IsSpace(t[0]) && !IsSpace(t[|t| - 1])
  {
    assert ([first] + later)[0] == first;
    assert ([first] + others)[0] == first;
  }

  /** `get_gwl_string`: the title and the forecast text, the forecast rewrapped. */
  function GwlString(titleMatches: seq<string>, prognoseMatches: seq<string>,
                     unescape: string -> string, isWord: char -> bool): (r: Result<(string, string), Error>)
    ensures r.Failure? <==> titleMatches == [] || prognoseMatches == []
    ensures r.Failure? ==> r.error == NoMatch
    ensures r.Success? ==> r.value.0 == Strip(unescape(titleMatches[0]))
    ensures r.Success? ==> r.value.1 == Rewrap.Rewrap(Strip(unescape(prognoseMatches[0])), isWord)
  {
    match ReFind(titleMatches, unescape)
    case Failure(e) => Failure(e)
    case Success(title) =>
      match ReFind(prognoseMatches, unescape)
      case Failure(e) => Failure(e)
      case Success(prognose) => Success((title, Rewrap.Rewrap(prognose, isWord)))
  }

  /** `find_cur_ZAMG_img_url`: the image address and its id from the first match;
      an empty match list raises `IndexError`. */
  function FindCurZamg(matches: seq<(string, string)>): (r: Result<(string, string), Error>)
    ensures r.Failure? <==> matches == []
    ensures r.Failure? ==> r.error == IndexError
    ensures r.Success? ==> r.value == matches[0]
  {
    if |matches| == 0 then Failure(IndexError) else Success(matches[0])
  }
}
