/**
 * `extract_video_id`: the leftmost match of the pattern
 * `(?:v=|/)([a-zA-Z0-9_-]{11})` in a YouTube URL, and its captured group.
 */
module VideoId {
  import opened Outcomes

  const IdLength: nat := 11

  /** The character class `[a-zA-Z0-9_-]`. */
  predicate IsIdChar(c: char) {
    ('a' <= c <= 'z') || ('A' <= c <= 'Z') || ('0' <= c <= '9') || c == '_' || c == '-'
  }

  /** Eleven identifier characters start at position `q` of `s`. */
  predicate IdAt(s: string, q: nat) {
    q + IdLength <= |s| && forall k :: q <= k < q + IdLength ==> IsIdChar(s[k])
  }

  /** The pattern matches at position `p`: `v=` or `/` there, then eleven identifier characters. */
  predicate PrefixedIdAt(s: string, p: nat) {
    (p + 2 <= |s| && s[p] == 'v' && s[p + 1] == '=' && IdAt(s, p + 2))
    || (p < |s| && s[p] == '/' && IdAt(s, p + 1))
  }

  /** The group captured by a match at `p`. */
  function Capture(s: string, p: nat): (id: string)
    requires PrefixedIdAt(s, p)
    ensures |id| == IdLength && forall k :: 0 <= k < |id| ==> IsIdChar(id[k])
  {
    if s[p] == '/' then s[p + 1..p + 1 + IdLength] else s[p + 2..p + 2 + IdLength]
  }

  /** `re.search` from position `p`: tries each start position in turn. */
  function SearchFrom(s: string, p: nat): (r: Option<string>)
    ensures r.Some? ==> |r.value| == IdLength && forall k :: 0 <= k < |r.value| ==> IsIdChar(r.value[k])
    decreases |s| - p
  {
    if p >= |s| then None
    else if PrefixedIdAt(s, p) then Some(Capture(s, p))
    else SearchFrom(s, p + 1)
  }

  /** `extract_video_id(url)`: `None`, or an 11-character identifier. */
  function ExtractVideoId(url: string): (r: Option<string>)
    ensures r.Some? ==> |r.value| == IdLength && forall k :: 0 <= k < |r.value| ==> IsIdChar(r.value[k])
  {
    SearchFrom(url, 0)
  }

  lemma {:induction false} SearchFromFindsLeftmost(s: string, from: nat, p: nat)
    requires from <= p && PrefixedIdAt(s, p)
    requires forall q :: from <= q < p ==> !PrefixedIdAt(s, q)
    ensures SearchFrom(s, from) == Some(Capture(s, p))
    decreases p - from
  {
    if from < p {
      SearchFromFindsLeftmost(s, from + 1, p);
    }
  }

  lemma {:induction false} SearchFromMisses(s: string, from: nat)
    requires forall q :: from <= q < |s| ==> !PrefixedIdAt(s, q)
    ensures SearchFrom(s, from) == None
    decreases |s| - from
  {
    if from < |s| {
      SearchFromMisses(s, from + 1);
    }
  }

  /** The identifier returned is the one after the leftmost `v=` or `/` followed by eleven identifier characters. */
  lemma ExtractVideoIdIsLeftmostMatch(url: string)
    ensures forall p: nat :: PrefixedIdAt(url, p) && (forall q :: 0 <= q < p ==> !PrefixedIdAt(url, q))
              ==> ExtractVideoId(url) == Some(Capture(url, p))
  {
    forall p: nat | PrefixedIdAt(url, p) && (forall q :: 0 <= q < p ==> !PrefixedIdAt(url, q))
      ensures ExtractVideoId(url) == Some(Capture(url, p))
    {
      SearchFromFindsLeftmost(url, 0, p);
    }
  }

  /** `None` means exactly that the pattern matches nowhere in the URL. */
  lemma ExtractVideoIdNoneIffNoMatch(url: string)
    ensures (forall p :: 0 <= p < |url| ==> !PrefixedIdAt(url, p)) <==> ExtractVideoId(url) == None
  {
    if forall p :: 0 <= p < |url| ==> !PrefixedIdAt(url, p) {
      SearchFromMisses(url, 0);
    } else {
      var p :| 0 <= p < |url| && PrefixedIdAt(url, p);
      LeftmostExists(url, p);
    }
  }

  /** When the pattern matches somewhere, the search returns something. */
  lemma {:induction false} LeftmostExists(s: string, p: nat)
    requires PrefixedIdAt(s, p)
    ensures SearchFrom(s, 0).Some?
    decreases p
  {
    if forall q :: 0 <= q < p ==> !PrefixedIdAt(s, q) {
      SearchFromFindsLeftmost(s, 0, p);
    } else {
      var q :| 0 <= q < p && PrefixedIdAt(s, q);
      LeftmostExists(s, q);
    }
  }
}
