/**
 * The paged top-tracks list of the web client: ten tracks per page, a page number that the
 * previous/next buttons, the arrow keys and a number input change, and JavaScript's `slice`
 * and coercion rules where the page number is blank.
 */
module Pager {
  import opened Prelude
  import opened Text

  const ItemsPerPage: int := 10

  /** The page state: a number, or the empty string the input holds while the user types. */
  datatype PageValue = Page(n: int) | Blank

  /** `Math.ceil(length / 10)`. */
  function TotalPages(length: nat): nat
  {
    (length + 9) / 10
  }

  /** Pages are the fewest groups of ten that hold every track. */
  lemma TotalPagesSpec(length: nat)
    ensures 10 * TotalPages(length) >= length
    ensures TotalPages(length) > 0 ==> 10 * (TotalPages(length) - 1) < length
    ensures TotalPages(length) == 0 <==> length == 0
  {
  }

  /** `(currentPage - 1) * 10`, where a blank page coerces to 0 (`'' - 1 == -1`). */
  function PageStart(p: PageValue): int
  {
    match p
    case Page(n) => (n - 1) * ItemsPerPage
    case Blank => -ItemsPerPage
  }

  /** One bound of JavaScript's `slice`: negative counts from the end, then clamped to the list. */
  function SliceBound(len: nat, i: int): (b: nat)
    ensures b <= len
    ensures 0 <= i <= len ==> b == i
  {
    if i < 0 then Max(len + i, 0) else Min(i, len)
  }

  /** JavaScript's `xs.slice(start, end)`. */
  function JsSlice<T>(xs: seq<T>, start: int, end: int): seq<T>
  {
    var s, e := SliceBound(|xs|, start), SliceBound(|xs|, end);
    if s >= e then [] else xs[s..e]
  }

  /** `tracks.slice(startIndex, endIndex)`. */
  function PageSlice<T>(tracks: seq<T>, p: PageValue): seq<T>
  {
    JsSlice(tracks, PageStart(p), PageStart(p) + ItemsPerPage)
  }

  /** A page number the list can show: between 1 and the number of pages. */
  predicate Settled(p: PageValue, total: nat)
  {
    p.Page? && 1 <= p.n <= total
  }

  /**
   * Page `p` of `1..totalPages` shows the non-empty run of at most ten tracks starting at
   * `(p - 1) * 10`; the rank printed beside the `i`-th of them, `startIndex + i + 1`, is that
   * track's 1-based position in the whole list.
   */
  lemma PageSliceSpec<T>(tracks: seq<T>, p: PageValue)
    requires Settled(p, TotalPages(|tracks|))
    ensures var s := PageSlice(tracks, p);
      && 0 < |s| <= ItemsPerPage
      && PageStart(p) + |s| <= |tracks|
      && s == tracks[PageStart(p) .. Min(PageStart(p) + ItemsPerPage, |tracks|)]
      && forall i :: 0 <= i < |s| ==> s[i] == tracks[PageStart(p) + i]
  {
    TotalPagesSpec(|tracks|);
    assert PageStart(p) < |tracks| by {
      assert PageStart(p) <= 10 * (TotalPages(|tracks|) - 1);
    }
  }

  /** While the input is blank the list shows nothing (`slice(-10, 0)`). */
  lemma BlankShowsNothing<T>(tracks: seq<T>)
    ensures PageSlice(tracks, Blank) == []
  {
  }

  /** The pages `1..totalPages`, in order. */
  function Pages<T>(tracks: seq<T>): (ps: seq<seq<T>>)
    ensures |ps| == TotalPages(|tracks|)
    ensures forall k :: 0 <= k < |ps| ==> ps[k] == PageSlice(tracks, Page(k + 1))
  {
    seq(TotalPages(|tracks|), k requires 0 <= k < TotalPages(|tracks|) => PageSlice(tracks, Page(k + 1)))
  }

  lemma {:induction false} PagesPrefix<T>(tracks: seq<T>, k: nat)
    requires k <= TotalPages(|tracks|)
    ensures Flatten(Pages(tracks)[..k]) == tracks[..Min(10 * k, |tracks|)]
  {
    if k == 0 {
      assert Pages(tracks)[..0] == [];
    } else {
      PagesPrefix(tracks, k - 1);
      PageSliceSpec(tracks, Page(k));
      var ps := Pages(tracks);
      assert ps[..k] == ps[..k - 1] + [ps[k - 1]];
      FlattenAppend(ps[..k - 1], [ps[k - 1]]);
      FlattenSingle(ps[k - 1]);
      assert tracks[..10 * (k - 1)] + ps[k - 1] == tracks[..Min(10 * k, |tracks|)];
    }
  }

  /** The pages, read in order, list every track exactly once and in order. */
  lemma PagesPartition<T>(tracks: seq<T>)
    ensures Flatten(Pages(tracks)) == tracks
  {
    var ps := Pages(tracks);
    PagesPrefix(tracks, |ps|);
    TotalPagesSpec(|tracks|);
    assert ps[..|ps|] == ps;
  }

  // ---- Handlers ----

  /** `handlePreviousPage` and ArrowDown: `Math.max(prev - 1, 1)`; a blank page gives 1. */
  function Previous(p: PageValue): (r: PageValue)
    ensures r.Page? && r.n >= 1
    ensures p.Page? && p.n > 1 ==> r == Page(p.n - 1)
    ensures !(p.Page? && p.n > 1) ==> r == Page(1)
  {
    match p
    case Page(n) => Page(Max(n - 1, 1))
    case Blank => Page(1)
  }

  /** `handleNextPage` and ArrowUp: `Math.min(prev + 1, totalPages)`; blank gives `'' + 1 == "1"`. */
  function Next(p: PageValue, total: nat): (r: PageValue)
    ensures r.Page? && r.n <= total
    ensures p.Page? && p.n < total ==> r == Page(p.n + 1)
    ensures p.Page? && p.n >= total ==> r == Page(total)
  {
    match p
    case Page(n) => Page(Min(n + 1, total))
    case Blank => Page(Min(1, total))
  }

  /** The longest run of decimal digits at the front of `s`. */
  function LeadingDigits(s: string): (d: string)
    ensures AllDigits(d) && |d| <= |s| && d == s[..|d|]
    ensures |d| < |s| ==> !('0' <= s[|d|] <= '9')
  {
    if s == [] || !('0' <= s[0] <= '9') then []
    else
      var rest := LeadingDigits(s[1..]);
      assert s[1..][..|rest|] == s[1..1 + |rest|];
      [s[0]] + rest
  }

  /** The string without its leading blanks. */
  function TrimStart(s: string): (t: string)
    ensures t != [] ==> !IsSpace(t[0])
  {
    if s != [] && IsSpace(s[0]) then TrimStart(s[1..]) else s
  }

  /** The unsigned part of `parseInt`: a leading run of digits, or NaN (`None`). */
  function ParseUnsigned(s: string): Option<int>
  {
    var d := LeadingDigits(s);
    if d == [] then None else Some(DigitsValue(d))
  }

  /** `parseInt(value)` in base 10: leading blanks, an optional sign, then the leading digits. */
  function ParseInt(value: string): Option<int>
  {
    var t := TrimStart(value);
    if t != [] && t[0] == '-' then
      match ParseUnsigned(t[1..]) case None => None case Some(n) => Some(-n)
    else if t != [] && t[0] == '+' then ParseUnsigned(t[1..])
    else ParseUnsigned(t)
  }

  lemma {:induction false} LeadingDigitsOfDigits(s: string, rest: string)
    requires AllDigits(s)
    requires rest == [] || !('0' <= rest[0] <= '9')
    ensures LeadingDigits(s + rest) == s
  {
    if s != [] {
      assert (s + rest)[1..] == s[1..] + rest;
      LeadingDigitsOfDigits(s[1..], rest);
    } else {
      assert s + rest == rest;
    }
  }

  /**
   * `parseInt` reads back what `String(n)` prints, with or without a minus sign, and stops at
   * the first character that is not a digit (so "2.5" reads as 2).
   */
  lemma ParseIntReadsIntegers(n: int, rest: string)
    requires n >= 0
    requires rest == [] || !('0' <= rest[0] <= '9')
    ensures ParseInt(NatToString(n) + rest) == Some(n)
    ensures ParseInt("-" + (NatToString(n) + rest)) == Some(-n)
  {
    var s := NatToString(n);
    ParseIntReadsDigits(s, rest);
    ParseUnsignedDigits(s, rest);
    ParseIntReadsNegated(s + rest, n);
  }

  lemma ParseIntReadsDigits(s: string, rest: string)
    requires AllDigits(s) && s != []
    requires rest == [] || !('0' <= rest[0] <= '9')
    ensures ParseInt(s + rest) == Some(DigitsValue(s))
  {
    ParseUnsignedDigits(s, rest);
    NoLeadingBlank(s + rest);
  }

  /** A minus sign in front of a text whose unsigned reading is `v` gives `-v`. */
  lemma ParseIntReadsNegated(u: string, v: int)
    requires ParseUnsigned(u) == Some(v)
    ensures ParseInt("-" + u) == Some(-v)
  {
    var t := "-" + u;
    assert t[1..] == u;
    NoLeadingBlank(t);
  }

  lemma NoLeadingBlank(t: string)
    requires t != [] && ('0' <= t[0] <= '9' || t[0] == '-')
    ensures TrimStart(t) == t
  {
  }

  lemma ParseUnsignedDigits(s: string, rest: string)
    requires AllDigits(s) && s != []
    requires rest == [] || !('0' <= rest[0] <= '9')
    ensures ParseUnsigned(s + rest) == Some(DigitsValue(s))
  {
    LeadingDigitsOfDigits(s, rest);
  }

  /** `handlePageInputChange`. */
  function InputChange(p: PageValue, value: string, total: nat): (r: PageValue)
    ensures value == "" ==> r == Blank
    ensures value != "" && ParseInt(value).None? ==> r == p
    ensures value != "" && ParseInt(value).Some? && total >= 1 ==>
      r == Page(if ParseInt(value).value < 1 then 1 else Min(ParseInt(value).value, total))
  {
    if value == "" then Blank
    else
      match ParseInt(value)
      case None => p
      case Some(k) =>
        if k >= 1 && k <= total then Page(k)
        else if k > total then Page(total)
        else Page(1)
  }

  /** `handlePageInputBlur`: a blank or non-positive page becomes 1, any other stays. */
  function Blur(p: PageValue): (r: PageValue)
    ensures (p.Blank? || p.n < 1) ==> r == Page(1)
    ensures p.Page? && p.n >= 1 ==> r == p
  {
    match p
    case Blank => Page(1)
    case Page(n) => if n < 1 then Page(1) else p
  }

  /** The input's key handler: Enter blurs it; the arrows step like the buttons. */
  function KeyDown(p: PageValue, key: string, total: nat): PageValue
  {
    if key == "Enter" then Blur(p)
    else if key == "ArrowUp" then Next(p, total)
    else if key == "ArrowDown" then Previous(p)
    else p
  }

  /**
   * Whenever the controls exist (at least one page), every handler keeps the page within
   * `1..totalPages` or, for the input only, blank; blurring or stepping always settles a blank page.
   */
  lemma HandlersKeepPageInRange(p: PageValue, value: string, key: string, total: nat)
    requires total >= 1 && (Settled(p, total) || p.Blank?)
    ensures Settled(Previous(p), total) && Settled(Next(p, total), total) && Settled(Blur(p), total)
    ensures Settled(InputChange(p, value, total), total) || InputChange(p, value, total).Blank?
    ensures key != "Enter" && key != "ArrowUp" && key != "ArrowDown" ==> KeyDown(p, key, total) == p
    ensures key == "Enter" || key == "ArrowUp" || key == "ArrowDown" ==> Settled(KeyDown(p, key, total), total)
  {
  }

  /** The page controls are shown only when there is more than one page. */
  function ShowsControls(length: nat): (b: bool)
    ensures b <==> length > ItemsPerPage
  {
    TotalPages(length) > 1
  }

  /** The component's list and page state. */
  class TrackPager<T> {
    var tracks: seq<T>
    var page: PageValue

    constructor()
      ensures tracks == [] && page == Page(1)
    {
      tracks := [];
      page := Page(1);
    }

    function Total(): nat
      reads this
    {
      TotalPages(|tracks|)
    }

    /** `currentTracks`. */
    function CurrentTracks(): seq<T>
      reads this
    {
      PageSlice(tracks, page)
    }

    /** The effect of a new time range: back to page 1 before the new list arrives. */
    method ChangeTimeRange()
      modifies this
      ensures page == Page(1) && tracks == old(tracks)
    {
      page := Page(1);
    }

    /** A fetched list replaces the old one; the page number is kept. */
    method Loaded(ts: seq<T>)
      modifies this
      ensures tracks == ts && page == old(page)
    {
      tracks := ts;
    }

    method PreviousPage()
      modifies this
      ensures page == Previous(old(page)) && tracks == old(tracks)
    {
      page := Previous(page);
    }

    method NextPage()
      modifies this
      ensures page == Next(old(page), TotalPages(|old(tracks)|)) && tracks == old(tracks)
    {
      page := Next(page, Total());
    }

    method PageInputChange(value: string)
      modifies this
      ensures page == InputChange(old(page), value, TotalPages(|old(tracks)|)) && tracks == old(tracks)
    {
      page := InputChange(page, value, Total());
    }

    method PageInputBlur()
      modifies this
      ensures page == Blur(old(page)) && tracks == old(tracks)
    {
      page := Blur(page);
    }

    method PageInputKeyDown(key: string)
      modifies this
      ensures page == KeyDown(old(page), key, TotalPages(|old(tracks)|)) && tracks == old(tracks)
    {
      page := KeyDown(page, key, Total());
    }
  }

  /** After a time-range change and any non-empty new list, the first ten tracks are shown. */
  lemma ResetShowsFirstPage<T>(ts: seq<T>)
    requires ts != []
    ensures Settled(Page(1), TotalPages(|ts|))
    ensures PageSlice(ts, Page(1)) == ts[..Min(ItemsPerPage, |ts|)]
  {
    PageSliceSpec(ts, Page(1));
  }
}
