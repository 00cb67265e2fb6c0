/** Turning scraped page attributes into recommendation lists: the shorts URL
    prefix, the video id inside a thumbnail style, and the first-success retry
    rule of the sidebar and preload getters in the three copies of the auditor. */
module Scrape {
  import opened Common

  const PrefixLong: string := "https://www.youtube.com/watch?v="
  const PrefixShort: string := "https://www.youtube.com/shorts/"

  /** `_prefix_short_url`: the shorts URL of a video id, or "" for the empty id. */
  function PrefixShortUrl(id: string): string
  {
    if id != "" then PrefixShort + id else ""
  }

  /** The empty id gives the empty URL; any other id gives the shorts prefix followed by
      the id, so the id can be read back and different ids give different URLs. */
  lemma ShortUrlProperties(id: string, other: string)
    ensures PrefixShortUrl(id) == "" <==> id == ""
    ensures id != "" ==>
      (|PrefixShortUrl(id)| == |PrefixShort| + |id|
       && PrefixShortUrl(id)[..|PrefixShort|] == PrefixShort
       && PrefixShortUrl(id)[|PrefixShort|..] == id)
    ensures PrefixShortUrl(id) == PrefixShortUrl(other) ==> id == other
  {
    if id != "" && other != "" && PrefixShortUrl(id) == PrefixShortUrl(other) {
      assert id == PrefixShortUrl(id)[|PrefixShort|..];
      assert other == PrefixShortUrl(other)[|PrefixShort|..];
    }
  }

  /** Python's `s * k` for a string and a non-negative count. */
  function Repeat(s: string, k: nat): (r: string)
    ensures |r| == |s| * k
  {
    if k == 0 then "" else s + Repeat(s, k - 1)
  }

  /** The module-level `__prefix` of the older copy: the prefix repeated `s != ""`
      times (a bool used as 0 or 1), followed by `s`. */
  function LegacyPrefix(s: string): string
  {
    Repeat(PrefixShort, if s != "" then 1 else 0) + s
  }

  /** The older `__prefix` computes the same URL as `_prefix_short_url`. */
  lemma LegacyPrefixAgrees(s: string)
    ensures LegacyPrefix(s) == PrefixShortUrl(s)
  {
    if s != "" {
      assert Repeat(PrefixShort, 1) == PrefixShort + Repeat(PrefixShort, 0);
      assert PrefixShort + "" == PrefixShort;
    } else {
      assert LegacyPrefix(s) == "" + "";
    }
  }

  /** `style.split("vi/")[-1].split("/")[0]`: the text after the last "vi/" up to the
      next "/". */
  function StyleToId(style: string): string
  {
    FirstPiece(LastPiece(style, "vi/"), "/")
  }

  /** The extracted id is a piece of the style string that starts right after its last
      "vi/" (or at the start when there is none), runs up to the next "/" (or to the end
      when there is none), and contains no "/". */
  lemma StyleToIdProperties(style: string)
    ensures var tail := LastPiece(style, "vi/");
      var id := StyleToId(style);
      && |tail| <= |style| && tail == style[|style| - |tail|..]
      && !Contains(tail, "vi/")
      && |id| <= |tail|
      && (Contains(style, "vi/") ==> |tail| + 3 <= |style| && OccursAt(style, "vi/", |style| - |tail| - 3))
      && (!Contains(style, "vi/") ==> tail == style)
      && id == tail[..|id|]
      && !Contains(id, "/")
      && (Contains(tail, "/") ==> OccursAt(tail, "/", |id|))
      && (!Contains(tail, "/") ==> id == tail)
  {
    LastPieceProperties(style, "vi/");
    FirstPieceProperties(LastPiece(style, "vi/"), "/");
  }

  /** The first attempt among `i .. tries - 1` that produced a value, as in a
      `for i in range(tries)` loop that returns on success and retries on any exception. */
  function FirstSuccess<T>(attempt: nat -> Option<T>, tries: int, i: nat): Option<T>
    decreases tries - i
  {
    if i >= tries then None
    else if attempt(i).Some? then attempt(i)
    else FirstSuccess(attempt, tries, i + 1)
  }

  /** The retry loop returns a value exactly when some attempt in range produced one,
      and then it is the value of the first such attempt. */
  lemma {:induction false} FirstSuccessProperties<T>(attempt: nat -> Option<T>, tries: int, i: nat)
    ensures var r := FirstSuccess(attempt, tries, i);
      && (r.None? <==> forall j: nat | i <= j < tries :: attempt(j).None?)
      && (r.Some? ==> exists j: nat | i <= j < tries ::
            (attempt(j) == r && forall k: nat | i <= k < j :: attempt(k).None?))
    decreases tries - i
  {
    if i < tries && attempt(i).None? {
      FirstSuccessProperties(attempt, tries, i + 1);
      var r := FirstSuccess(attempt, tries, i);
      if r.Some? {
        var j: nat :| i + 1 <= j < tries && attempt(j) == r
          && forall k: nat | i + 1 <= k < j :: attempt(k).None?;
        assert forall k: nat | i <= k < j :: attempt(k).None?;
      }
    }
  }

  function OrEmpty<T>(r: Option<seq<T>>): seq<T>
  {
    match r
    case Some(v) => v
    case None => []
  }

  /** `GetSidebar` of the current copies: the links of the first attempt that read the
      sidebar, or [] when all `err_attempts` attempts failed. */
  function SidebarResult(tries: int, attempt: nat -> Option<seq<string>>): seq<string>
  {
    OrEmpty(FirstSuccess(attempt, tries, 0))
  }

  /** `GetSidebar` of the older copy falls off the end of its loop: None when every
      attempt failed. */
  function LegacySidebarResult(tries: int, attempt: nat -> Option<seq<string>>): Option<seq<string>>
  {
    FirstSuccess(attempt, tries, 0)
  }

  /** Every style of a preload attempt was read as a string (a None style makes
      `.split` raise). */
  predicate AllRead(styles: seq<Option<string>>)
  {
    forall k | 0 <= k < |styles| :: styles[k].Some?
  }

  /** One preload attempt of the current copy: the shorts URL of every container's
      thumbnail, or a failure when the containers could not be read or a style is None. */
  function PreloadBatch(read: Option<seq<Option<string>>>): Option<seq<string>>
  {
    match read
    case None => None
    case Some(styles) =>
      if AllRead(styles) then
        Some(seq(|styles|, k requires 0 <= k < |styles| && styles[k].Some? => PrefixShortUrl(StyleToId(styles[k].value))))
      else None
  }

  /** One preload attempt of a copy whose comprehension calls a helper name that does not
      resolve: Python looks the name up before evaluating any argument, so the attempt
      succeeds only when there are no containers and fails otherwise. */
  function UnresolvedPreloadBatch(read: Option<seq<Option<string>>>): Option<seq<string>>
  {
    match read
    case None => None
    case Some(styles) => if styles == [] then Some([]) else None
  }

  /** The preload attempts of the current copy, one per retry. */
  function PreloadAttempts(read: nat -> Option<seq<Option<string>>>): nat -> Option<seq<string>>
  {
    (i: nat) => PreloadBatch(read(i))
  }

  /** The preload attempts of a copy whose helper name does not resolve. */
  function UnresolvedAttempts(read: nat -> Option<seq<Option<string>>>): nat -> Option<seq<string>>
  {
    (i: nat) => UnresolvedPreloadBatch(read(i))
  }

  /** `GetPreloadRec` of youtubeaudit. */
  function PreloadResult(tries: int, read: nat -> Option<seq<Option<string>>>): seq<string>
  {
    OrEmpty(FirstSuccess(PreloadAttempts(read), tries, 0))
  }

  /** `GetPreloadRec` of longstoryshort/core.py, where `_prefix_short_url` is not defined. */
  function UnresolvedPreloadResult(tries: int, read: nat -> Option<seq<Option<string>>>): seq<string>
  {
    OrEmpty(FirstSuccess(UnresolvedAttempts(read), tries, 0))
  }

  /** `GetPreloadRec` of the older copy: `__prefix` inside the class body is mangled to a
      name that does not exist, and the loop falls off the end with None. */
  function LegacyPreloadResult(tries: int, read: nat -> Option<seq<Option<string>>>): Option<seq<string>>
  {
    FirstSuccess(UnresolvedAttempts(read), tries, 0)
  }

  /** The sidebar getter returns the links of the first attempt that read them, or [] only
      when every attempt failed or the first successful one found no links. */
  lemma SidebarResultProperties(tries: int, attempt: nat -> Option<seq<string>>)
    ensures (forall j: nat | j < tries :: attempt(j).None?) ==> SidebarResult(tries, attempt) == []
    ensures (exists j: nat | j < tries :: attempt(j).Some?) ==>
      exists j: nat | j < tries ::
        (attempt(j) == Some(SidebarResult(tries, attempt)) && forall k: nat | k < j :: attempt(k).None?)
    ensures LegacySidebarResult(tries, attempt).None? <==> forall j: nat | j < tries :: attempt(j).None?
    ensures LegacySidebarResult(tries, attempt).Some? ==> LegacySidebarResult(tries, attempt).value == SidebarResult(tries, attempt)
  {
    FirstSuccessProperties(attempt, tries, 0);
  }

  /** A successful preload attempt read every style and yields one shorts URL per
      container. */
  lemma PreloadBatchProperties(read: Option<seq<Option<string>>>)
    ensures var b := PreloadBatch(read);
      b.Some? ==>
        (read.Some? && AllRead(read.value) && |b.value| == |read.value|
         && forall k | 0 <= k < |b.value| :: b.value[k] == PrefixShortUrl(StyleToId(read.value[k].value)))
  {
  }

  /** The preload getter of youtubeaudit returns [] when no attempt read its containers
      and all their styles; otherwise it returns the batch of the first attempt that did,
      even an empty one: one shorts URL per container, built from the id inside that
      container's style. */
  lemma PreloadResultProperties(tries: int, read: nat -> Option<seq<Option<string>>>)
    ensures (forall j: nat | j < tries :: PreloadBatch(read(j)).None?) ==> PreloadResult(tries, read) == []
    ensures var r := PreloadResult(tries, read);
      (exists j: nat | j < tries :: PreloadBatch(read(j)).Some?) ==> exists j: nat | j < tries ::
        (PreloadBatch(read(j)) == Some(r)
         && read(j).Some? && AllRead(read(j).value)
         && |r| == |read(j).value|
         && (forall k | 0 <= k < |r| :: r[k] == PrefixShortUrl(StyleToId(read(j).value[k].value)))
         && forall i: nat | i < j :: PreloadBatch(read(i)).None?)
  {
    var f := PreloadAttempts(read);
    FirstSuccessProperties(f, tries, 0);
    var r := FirstSuccess(f, tries, 0);
    assert forall j: nat | j < tries :: f(j) == PreloadBatch(read(j));
    if r.Some? {
      var j: nat :| j < tries && f(j) == r && forall k: nat | k < j :: f(k).None?;
      PreloadBatchProperties(read(j));
      assert forall i: nat | i < j :: PreloadBatch(read(i)).None? by {
        forall i: nat | i < j ensures PreloadBatch(read(i)).None? { assert f(i).None?; }
      }
    }
  }

  /** With the unresolved helper the current copy's preload list is always empty. */
  lemma UnresolvedPreloadIsEmpty(tries: int, read: nat -> Option<seq<Option<string>>>)
    ensures UnresolvedPreloadResult(tries, read) == []
  {
    var f := UnresolvedAttempts(read);
    FirstSuccessProperties(f, tries, 0);
    var r := FirstSuccess(f, tries, 0);
    if r.Some? {
      var j: nat :| j < tries && f(j) == r && forall k: nat | k < j :: f(k).None?;
      assert UnresolvedPreloadBatch(read(j)) == r;
    }
  }

  /** The older copy's preload getter gives None unless some attempt in range found no
      containers at all, and then it gives []: it never yields a URL. */
  lemma LegacyPreloadProperties(tries: int, read: nat -> Option<seq<Option<string>>>)
    ensures var r := LegacyPreloadResult(tries, read);
      && (r.Some? ==> r.value == [])
      && (r.Some? <==> exists j: nat | j < tries :: read(j) == Some([]))
  {
    var f := UnresolvedAttempts(read);
    FirstSuccessProperties(f, tries, 0);
    var r := FirstSuccess(f, tries, 0);
    if r.Some? {
      var j: nat :| j < tries && f(j) == r && forall k: nat | k < j :: f(k).None?;
      assert UnresolvedPreloadBatch(read(j)) == r;
      assert read(j) == Some([]);
    } else {
      forall j: nat | j < tries
        ensures read(j) != Some([])
      {
        assert f(j).None?;
      }
    }
  }
}
