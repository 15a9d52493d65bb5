/** The webhook's link normalizer, written step by step as the Python does it
    (a `for`/`break` unwrap loop, then an outer loop over items and an inner
    loop over nested entries that append to a list and add to a set), and
    proved to compute `DownloadLinks.Normalize`; plus the plot truncation of
    the movie-details message. */
module Webhook {
  import opened Json
  import opened DownloadLinks

  /** api/webhook.py lines 53-58: a dict is replaced by the value of its first container
      key that holds a list. */
  method UnwrapContainer(rawLinks: Json) returns (raw: Json)
    ensures raw == Unwrap(rawLinks)
  {
    raw := rawLinks;
    if raw.Obj? {
      var i := 0;
      while i < |ContainerKeys|
        invariant 0 <= i <= |ContainerKeys|
        invariant raw == rawLinks
        invariant ListUnder(rawLinks.fields, ContainerKeys[i..], rawLinks) == Unwrap(rawLinks)
      {
        var value := Get(rawLinks.fields, ContainerKeys[i]);
        if value.Arr? {
          raw := value;
          break;
        }
        assert ContainerKeys[i..][1..] == ContainerKeys[i + 1..];
        i := i + 1;
      }
    }
  }

  /** api/webhook.py lines 51-103, `normalize_download_links(rawLinks)`: the normalized
      records, or the TypeError raised on a truthy list or dict URL. */
  method NormalizeDownloadLinks(rawLinks: Json) returns (r: Outcome)
    ensures r == Normalize(rawLinks)
  {
    var raw := UnwrapContainer(rawLinks);
    if !raw.Arr? {
      return Links([]);
    }
    var items := raw.items;
    var normalizedLinks: seq<Link> := [];
    var seenUrls: set<Json> := {};
    ghost var proposed: seq<Link> := [];

    var i := 0;
    while i < |items|
      invariant 0 <= i <= |items|
      invariant proposed == Candidates(items[..i])
      invariant FirstUnhashable(proposed) == None
      invariant normalizedLinks == Dedup(proposed)
      invariant seenUrls == UrlKeys(proposed)
    {
      var failure;
      normalizedLinks, seenUrls, failure := OfferItem(items[i], normalizedLinks, seenUrls, proposed);
      CandidatesStep(items, i);
      proposed := proposed + ItemCandidates(items[i]);
      if failure.Some? {
        RaisesFromPrefix(rawLinks, items, i + 1);
        return Unhashable(failure.value);
      }
      i := i + 1;
    }
    assert items[..i] == items;
    return Links(normalizedLinks);
  }

  /** api/webhook.py lines 67-101, one pass of the outer loop: a dict item offers its
      direct record, then the records of its nested list. */
  method OfferItem(item: Json, normalizedLinks: seq<Link>, seenUrls: set<Json>, ghost proposed: seq<Link>)
    returns (normalizedLinks': seq<Link>, seenUrls': set<Json>, failure: Option<Json>)
    requires FirstUnhashable(proposed) == None
    requires normalizedLinks == Dedup(proposed) && seenUrls == UrlKeys(proposed)
    ensures failure == FirstUnhashable(proposed + ItemCandidates(item))
    ensures failure.None? ==> normalizedLinks' == Dedup(proposed + ItemCandidates(item))
    ensures failure.None? ==> seenUrls' == UrlKeys(proposed + ItemCandidates(item))
  {
    if !item.Obj? {
      assert proposed + ItemCandidates(item) == proposed;
      return normalizedLinks, seenUrls, None;
    }
    var m := item.fields;
    ghost var afterDirect := proposed + DirectCandidate(m);
    assert proposed + ItemCandidates(item) == afterDirect + NestedRecords(m);
    normalizedLinks', seenUrls', failure := OfferDirect(m, normalizedLinks, seenUrls, proposed);
    if failure.Some? {
      FirstUnhashableAppend(afterDirect, NestedRecords(m));
      return;
    }
    var nestedLinks := NestedList(m);
    if nestedLinks.Arr? {
      normalizedLinks', seenUrls', failure := OfferNested(nestedLinks.items, ItemQuality(m), ItemSize(m), normalizedLinks', seenUrls', afterDirect);
    } else {
      assert afterDirect + NestedRecords(m) == afterDirect;
    }
  }

  /** api/webhook.py lines 70-82: a dict item offers a record for its direct URL, if that
      is truthy, with the item's quality and size. */
  method OfferDirect(m: map<string, Json>, normalizedLinks: seq<Link>, seenUrls: set<Json>, ghost proposed: seq<Link>)
    returns (normalizedLinks': seq<Link>, seenUrls': set<Json>, failure: Option<Json>)
    requires FirstUnhashable(proposed) == None
    requires normalizedLinks == Dedup(proposed) && seenUrls == UrlKeys(proposed)
    ensures failure == FirstUnhashable(proposed + DirectCandidate(m))
    ensures failure.None? ==> normalizedLinks' == Dedup(proposed + DirectCandidate(m))
    ensures failure.None? ==> seenUrls' == UrlKeys(proposed + DirectCandidate(m))
  {
    var quality := ItemQuality(m);
    var size := ItemSize(m);
    var directUrl := DirectUrl(m);
    if Truthy(directUrl) {
      normalizedLinks', seenUrls', failure := Offer(normalizedLinks, seenUrls, proposed, Link(quality, size, directUrl));
    } else {
      assert proposed + DirectCandidate(m) == proposed;
      normalizedLinks', seenUrls', failure := normalizedLinks, seenUrls, None;
    }
  }

  /** api/webhook.py lines 85-101, the inner loop: each dict entry of the nested list with
      a truthy URL offers a record that inherits the item's quality and size
      where its own are falsy. */
  method OfferNested(nested: seq<Json>, quality: Json, size: Json,
                     normalizedLinks: seq<Link>, seenUrls: set<Json>, ghost proposed: seq<Link>)
    returns (normalizedLinks': seq<Link>, seenUrls': set<Json>, failure: Option<Json>)
    requires FirstUnhashable(proposed) == None
    requires normalizedLinks == Dedup(proposed) && seenUrls == UrlKeys(proposed)
    ensures failure == FirstUnhashable(proposed + NestedCandidates(nested, quality, size))
    ensures failure.None? ==> normalizedLinks' == Dedup(proposed + NestedCandidates(nested, quality, size))
    ensures failure.None? ==> seenUrls' == UrlKeys(proposed + NestedCandidates(nested, quality, size))
  {
    normalizedLinks', seenUrls', failure := normalizedLinks, seenUrls, None;
    ghost var current := proposed;
    var j := 0;
    while j < |nested|
      invariant 0 <= j <= |nested|
      invariant current == proposed + NestedCandidates(nested[..j], quality, size)
      invariant FirstUnhashable(current) == None
      invariant failure.None? && normalizedLinks' == Dedup(current) && seenUrls' == UrlKeys(current)
    {
      normalizedLinks', seenUrls', failure := OfferEntry(nested[j], quality, size, normalizedLinks', seenUrls', current);
      NestedCandidatesStep(proposed, nested, j, quality, size);
      current := current + NestedCandidate(nested[j], quality, size);
      if failure.Some? {
        NestedRaisesFromPrefix(proposed, nested, j + 1, quality, size);
        return;
      }
      j := j + 1;
    }
    assert nested[..j] == nested;
  }

  /** api/webhook.py lines 87-101, one pass of the inner loop: an entry that is a dict with
      a truthy URL offers its record. */
  method OfferEntry(entry: Json, quality: Json, size: Json,
                    normalizedLinks: seq<Link>, seenUrls: set<Json>, ghost proposed: seq<Link>)
    returns (normalizedLinks': seq<Link>, seenUrls': set<Json>, failure: Option<Json>)
    requires FirstUnhashable(proposed) == None
    requires normalizedLinks == Dedup(proposed) && seenUrls == UrlKeys(proposed)
    ensures failure == FirstUnhashable(proposed + NestedCandidate(entry, quality, size))
    ensures failure.None? ==> normalizedLinks' == Dedup(proposed + NestedCandidate(entry, quality, size))
    ensures failure.None? ==> seenUrls' == UrlKeys(proposed + NestedCandidate(entry, quality, size))
  {
    normalizedLinks', seenUrls', failure := normalizedLinks, seenUrls, None;
    if !entry.Obj? {
      assert proposed + NestedCandidate(entry, quality, size) == proposed;
      return;
    }
    var nestedUrl := NestedUrl(entry.fields);
    if !Truthy(nestedUrl) {
      assert proposed + NestedCandidate(entry, quality, size) == proposed;
      return;
    }
    var link := Link(NestedQuality(entry.fields, quality), NestedSize(entry.fields, size), nestedUrl);
    normalizedLinks', seenUrls', failure := Offer(normalizedLinks, seenUrls, proposed, link);
  }

  /** api/webhook.py lines 80-82 and 91-101: a proposed record is kept unless its URL was
      seen; testing a list or dict URL against the set raises TypeError. */
  method Offer(normalizedLinks: seq<Link>, seenUrls: set<Json>, ghost proposed: seq<Link>, link: Link)
    returns (normalizedLinks': seq<Link>, seenUrls': set<Json>, failure: Option<Json>)
    requires FirstUnhashable(proposed) == None
    requires normalizedLinks == Dedup(proposed) && seenUrls == UrlKeys(proposed)
    ensures failure == FirstUnhashable(proposed + [link])
    ensures failure.None? ==> normalizedLinks' == Dedup(proposed + [link]) && seenUrls' == UrlKeys(proposed + [link])
  {
    assert (proposed + [link])[..|proposed|] == proposed;
    normalizedLinks', seenUrls', failure := normalizedLinks, seenUrls, None;
    if !Hashable(link.url) {
      failure := Some(link.url);
    } else if HashKey(link.url) !in seenUrls {
      normalizedLinks' := normalizedLinks + [link];
      seenUrls' := seenUrls + {HashKey(link.url)};
    }
  }

  /** An unhashable URL among the records of the first `k` items makes the
      whole call raise on it. */
  lemma RaisesFromPrefix(rawLinks: Json, items: seq<Json>, k: nat)
    requires Unwrap(rawLinks) == Arr(items) && k <= |items|
    requires FirstUnhashable(Candidates(items[..k])).Some?
    ensures Normalize(rawLinks) == Unhashable(FirstUnhashable(Candidates(items[..k])).value)
  {
    assert items == items[..k] + items[k..];
    CandidatesAppend(items[..k], items[k..]);
    FirstUnhashableAppend(Candidates(items[..k]), Candidates(items[k..]));
  }

  /** The same for the first `k` entries of a nested list. */
  lemma NestedRaisesFromPrefix(proposed: seq<Link>, nested: seq<Json>, k: nat, quality: Json, size: Json)
    requires k <= |nested|
    requires FirstUnhashable(proposed + NestedCandidates(nested[..k], quality, size)).Some?
    ensures FirstUnhashable(proposed + NestedCandidates(nested, quality, size))
            == FirstUnhashable(proposed + NestedCandidates(nested[..k], quality, size))
  {
    var x, y := NestedCandidates(nested[..k], quality, size), NestedCandidates(nested[k..], quality, size);
    ConcatSplit(nested, k, NestedOf(quality, size));
    FirstUnhashableExtend(proposed, x, y);
  }

  /** api/webhook.py lines 400-401: a plot longer than 300 characters is cut to its first
      297 characters followed by "...". */
  function TruncatePlot(plot: string): (r: string)
    ensures |plot| <= 300 ==> r == plot
    ensures |plot| > 300 ==> |r| == 300 && r[..297] == plot[..297] && r[297..] == "..."
  {
    if |plot| > 300 then plot[..297] + "..." else plot
  }

  /** The message never shows more than 300 characters of plot, and
      truncating twice is truncating once. */
  lemma TruncatePlotBounded(plot: string)
    ensures |TruncatePlot(plot)| <= 300
    ensures TruncatePlot(TruncatePlot(plot)) == TruncatePlot(plot)
    ensures TruncatePlot(plot) == plot <==> |plot| <= 300
  {
  }
}
