/** The reference definition of download-link normalization: which list is
    read, which records the traversal proposes in which order, how duplicates
    are dropped, and when Python's TypeError cuts the call short. The method
    in module Webhook is proved to compute exactly `Normalize`. */
module DownloadLinks {
  import opened Json

  /** One normalized record `{quality, size, url}`. Quality and size are the
      JSON values selected for them, not necessarily strings. */
  datatype Link = Link(quality: Json, size: Json, url: Json)

  /** What a normalization call ends with: the record list, or the TypeError
      Python raises when a truthy list or dict URL is tested against the set
      of seen URLs (the offending value is carried). */
  datatype Outcome = Links(links: seq<Link>) | Unhashable(url: Json)

  datatype Option<T> = None | Some(value: T)

  /** Keys of a container dict that may hold the list of links, by priority. */
  const ContainerKeys: seq<string> := ["downloadLinks", "results", "links", "downloads", "data"]

  /** The value of the first of `keys` whose value in `m` is a list, or
      `default` when none is. */
  function ListUnder(m: map<string, Json>, keys: seq<string>, default: Json): (r: Json)
    ensures r.Arr? || r == default
    ensures forall i | 0 <= i < |keys| && Get(m, keys[i]).Arr? && (forall j | 0 <= j < i :: !Get(m, keys[j]).Arr?) ::
              r == Get(m, keys[i])
    ensures (forall i | 0 <= i < |keys| :: !Get(m, keys[i]).Arr?) ==> r == default
  {
    if keys == [] then default
    else if Get(m, keys[0]).Arr? then Get(m, keys[0])
    else
      var r := ListUnder(m, keys[1..], default);
      assert forall i | 1 <= i < |keys| :: keys[i] == keys[1..][i - 1];
      r
  }

  /** The value the normalizer iterates over: a dict is replaced by its first
      container key holding a list; anything else is kept as it is. */
  function Unwrap(raw: Json): (r: Json)
    ensures r.Arr? || r == raw
    ensures !raw.Obj? ==> r == raw
    ensures raw.Obj? ==>
              forall i | 0 <= i < |ContainerKeys| && Get(raw.fields, ContainerKeys[i]).Arr?
                           && (forall j | 0 <= j < i :: !Get(raw.fields, ContainerKeys[j]).Arr?) ::
                r == Get(raw.fields, ContainerKeys[i])
    ensures raw.Obj? && (forall i | 0 <= i < |ContainerKeys| :: !Get(raw.fields, ContainerKeys[i]).Arr?) ==> r == raw
  {
    if raw.Obj? then ListUnder(raw.fields, ContainerKeys, raw) else raw
  }

  /** `quality or label or "Unknown"` of a top-level item: never falsy. */
  function ItemQuality(item: map<string, Json>): (q: Json)
    ensures Truthy(q)
    ensures Truthy(Get(item, "quality")) ==> q == Get(item, "quality")
    ensures !Truthy(Get(item, "quality")) && Truthy(Get(item, "label")) ==> q == Get(item, "label")
    ensures !Truthy(Get(item, "quality")) && !Truthy(Get(item, "label")) ==> q == Str("Unknown")
  {
    Or(Or(Get(item, "quality"), Get(item, "label")), Str("Unknown"))
  }

  /** `size or ""` of a top-level item: its size when truthy, else "". */
  function ItemSize(item: map<string, Json>): (s: Json)
    ensures Truthy(s) || s == Str("")
    ensures Truthy(Get(item, "size")) ==> s == Get(item, "size")
    ensures !Truthy(Get(item, "size")) ==> s == Str("")
  {
    Or(Get(item, "size"), Str(""))
  }

  /** The direct URL of a top-level item: the first truthy of `url`, `link`,
      `directLink`, `download` (the falsy `download` value when none is). */
  function DirectUrl(item: map<string, Json>): (u: Json)
    ensures Truthy(u) <==> Truthy(Get(item, "url")) || Truthy(Get(item, "link"))
                           || Truthy(Get(item, "directLink")) || Truthy(Get(item, "download"))
    ensures Truthy(Get(item, "url")) ==> u == Get(item, "url")
    ensures !Truthy(Get(item, "url")) && Truthy(Get(item, "link")) ==> u == Get(item, "link")
    ensures !Truthy(Get(item, "url")) && !Truthy(Get(item, "link")) && Truthy(Get(item, "directLink")) ==>
              u == Get(item, "directLink")
    ensures !Truthy(Get(item, "url")) && !Truthy(Get(item, "link")) && !Truthy(Get(item, "directLink")) ==>
              u == Get(item, "download")
  {
    Or(Or(Or(Get(item, "url"), Get(item, "link")), Get(item, "directLink")), Get(item, "download"))
  }

  /** The nested link collection of an item: the first truthy of `links`,
      `files`, `options` (the `options` value when none is). */
  function NestedList(item: map<string, Json>): (l: Json)
    ensures Truthy(Get(item, "links")) ==> l == Get(item, "links")
    ensures !Truthy(Get(item, "links")) && Truthy(Get(item, "files")) ==> l == Get(item, "files")
    ensures !Truthy(Get(item, "links")) && !Truthy(Get(item, "files")) ==> l == Get(item, "options")
  {
    Or(Or(Get(item, "links"), Get(item, "files")), Get(item, "options"))
  }

  /** The URL of a nested entry: the first truthy of `url`, `link`,
      `download`; `directLink` is not consulted. */
  function NestedUrl(nested: map<string, Json>): (u: Json)
    ensures Truthy(u) <==> Truthy(Get(nested, "url")) || Truthy(Get(nested, "link")) || Truthy(Get(nested, "download"))
    ensures Truthy(Get(nested, "url")) ==> u == Get(nested, "url")
    ensures !Truthy(Get(nested, "url")) && Truthy(Get(nested, "link")) ==> u == Get(nested, "link")
    ensures !Truthy(Get(nested, "url")) && !Truthy(Get(nested, "link")) ==> u == Get(nested, "download")
  {
    Or(Or(Get(nested, "url"), Get(nested, "link")), Get(nested, "download"))
  }

  /** A nested entry's quality: its own `quality`, else its `label`, else the
      quality computed for its parent item. */
  function NestedQuality(nested: map<string, Json>, parent: Json): (q: Json)
    ensures Truthy(Get(nested, "quality")) ==> q == Get(nested, "quality")
    ensures !Truthy(Get(nested, "quality")) && Truthy(Get(nested, "label")) ==> q == Get(nested, "label")
    ensures !Truthy(Get(nested, "quality")) && !Truthy(Get(nested, "label")) ==> q == parent
  {
    Or(Or(Get(nested, "quality"), Get(nested, "label")), parent)
  }

  /** A nested entry's size: its own `size`, else the size computed for its
      parent item. */
  function NestedSize(nested: map<string, Json>, parent: Json): (s: Json)
    ensures Truthy(Get(nested, "size")) ==> s == Get(nested, "size")
    ensures !Truthy(Get(nested, "size")) ==> s == parent
  {
    Or(Get(nested, "size"), parent)
  }

  // ---------------------------------------------------------------------
  // The traversal: every record the loops propose, before de-duplication.
  // ---------------------------------------------------------------------

  /** The record a top-level dict proposes for its direct URL, if truthy. */
  function DirectCandidate(item: map<string, Json>): seq<Link> {
    var u := DirectUrl(item);
    if Truthy(u) then [Link(ItemQuality(item), ItemSize(item), u)] else []
  }

  /** The record one nested entry proposes: none unless it is a dict with a
      truthy URL. */
  function NestedCandidate(nested: Json, quality: Json, size: Json): seq<Link> {
    if !nested.Obj? then []
    else
      var u := NestedUrl(nested.fields);
      if Truthy(u) then [Link(NestedQuality(nested.fields, quality), NestedSize(nested.fields, size), u)] else []
  }

  /** `NestedCandidate` for the entries of one item's nested list. */
  function NestedOf(quality: Json, size: Json): Json -> seq<Link> {
    e => NestedCandidate(e, quality, size)
  }

  /** The records proposed by a nested list, in list order. */
  function NestedCandidates(nested: seq<Json>, quality: Json, size: Json): seq<Link> {
    Concat(nested, NestedOf(quality, size))
  }

  /** The records one top-level entry proposes: nothing for a non-dict; for a
      dict its direct record first, then the records of its nested list (only
      when that value is a list; nested entries are not walked further). */
  function ItemCandidates(item: Json): seq<Link> {
    if !item.Obj? then [] else DirectCandidate(item.fields) + NestedRecords(item.fields)
  }

  /** The records of a top-level dict's nested list, when that is a list. */
  function NestedRecords(item: map<string, Json>): seq<Link> {
    var nested := NestedList(item);
    if nested.Arr? then NestedCandidates(nested.items, ItemQuality(item), ItemSize(item)) else []
  }

  /** `f(x0) + f(x1) + ... + f(xn)`: the records proposed by each of `xs`, in order. */
  function Concat(xs: seq<Json>, f: Json -> seq<Link>): seq<Link> {
    if xs == [] then [] else Concat(xs[..|xs| - 1], f) + f(xs[|xs| - 1])
  }

  /** The records proposed by a list of items, in traversal order. */
  function Candidates(items: seq<Json>): seq<Link> {
    Concat(items, ItemCandidates)
  }

  // ---------------------------------------------------------------------
  // De-duplication and the TypeError.
  // ---------------------------------------------------------------------

  /** The set elements the URLs of `cs` stand for. */
  function UrlKeys(cs: seq<Link>): set<Json> {
    if cs == [] then {} else UrlKeys(cs[..|cs| - 1]) + {HashKey(cs[|cs| - 1].url)}
  }

  /** `cs` with every record dropped whose URL was already seen earlier. */
  function Dedup(cs: seq<Link>): seq<Link> {
    if cs == [] then []
    else
      var prefix := cs[..|cs| - 1];
      if HashKey(cs[|cs| - 1].url) in UrlKeys(prefix) then Dedup(prefix) else Dedup(prefix) + [cs[|cs| - 1]]
  }

  /** The first URL in `cs` that Python cannot test for set membership. */
  function FirstUnhashable(cs: seq<Link>): Option<Json> {
    if cs == [] then None
    else
      match FirstUnhashable(cs[..|cs| - 1])
      case Some(u) => Some(u)
      case None => if Hashable(cs[|cs| - 1].url) then None else Some(cs[|cs| - 1].url)
  }

  /** The first record in `cs` whose URL stands for the set element `k`. */
  function FirstWithKey(cs: seq<Link>, k: Json): Option<Link> {
    if cs == [] then None
    else
      match FirstWithKey(cs[..|cs| - 1], k)
      case Some(c) => Some(c)
      case None => if HashKey(cs[|cs| - 1].url) == k then Some(cs[|cs| - 1]) else None
  }

  /** What `normalize_download_links(raw)` returns, or the TypeError it raises. */
  function Normalize(raw: Json): Outcome {
    var list := Unwrap(raw);
    if !list.Arr? then Links([])
    else
      var cs := Candidates(list.items);
      match FirstUnhashable(cs)
      case Some(u) => Unhashable(u)
      case None => Links(Dedup(cs))
  }

  /** Number of entries in the nested lists of `items` that the traversal walks. */
  function NestedEntries(items: seq<Json>): nat {
    if items == [] then 0
    else
      var item := items[|items| - 1];
      NestedEntries(items[..|items| - 1])
      + (if item.Obj? && NestedList(item.fields).Arr? then |NestedList(item.fields).items| else 0)
  }

  /** `items` without its entries that are not dicts. */
  function DictsOnly(items: seq<Json>): seq<Json> {
    if items == [] then []
    else DictsOnly(items[..|items| - 1]) + (if items[|items| - 1].Obj? then [items[|items| - 1]] else [])
  }

  // ---------------------------------------------------------------------
  // Structure of the traversal.
  // ---------------------------------------------------------------------

  /** Concatenating over two runs is concatenating over each. */
  lemma {:induction false} ConcatAppend(a: seq<Json>, b: seq<Json>, f: Json -> seq<Link>)
    ensures Concat(a + b, f) == Concat(a, f) + Concat(b, f)
  {
    if b == [] {
      assert a + b == a;
    } else {
      var b' := b[..|b| - 1];
      assert (a + b)[..|a + b| - 1] == a + b';
      ConcatAppend(a, b', f);
    }
  }

  /** One more item appends its records. */
  lemma CandidatesStep(items: seq<Json>, i: nat)
    requires i < |items|
    ensures Candidates(items[..i + 1]) == Candidates(items[..i]) + ItemCandidates(items[i])
  {
    assert items[..i + 1][..i] == items[..i];
  }

  /** One more entry appends its records, after any records before them. */
  lemma ConcatStep(proposed: seq<Link>, xs: seq<Json>, j: nat, f: Json -> seq<Link>)
    requires j < |xs|
    ensures proposed + Concat(xs[..j], f) + f(xs[j]) == proposed + Concat(xs[..j + 1], f)
  {
    assert xs[..j + 1][..j] == xs[..j];
  }

  /** The records of a run split at any entry. */
  lemma ConcatSplit(xs: seq<Json>, k: nat, f: Json -> seq<Link>)
    requires k <= |xs|
    ensures Concat(xs, f) == Concat(xs[..k], f) + Concat(xs[k..], f)
  {
    assert xs[..k] + xs[k..] == xs;
    ConcatAppend(xs[..k], xs[k..], f);
  }

  /** One more nested entry appends its record, if any. */
  lemma NestedCandidatesStep(proposed: seq<Link>, nested: seq<Json>, j: nat, quality: Json, size: Json)
    requires j < |nested|
    ensures proposed + NestedCandidates(nested[..j], quality, size) + NestedCandidate(nested[j], quality, size)
            == proposed + NestedCandidates(nested[..j + 1], quality, size)
  {
    ConcatStep(proposed, nested, j, NestedOf(quality, size));
  }

  /** The records of two runs of items are those of the first followed by
      those of the second. */
  lemma CandidatesAppend(a: seq<Json>, b: seq<Json>)
    ensures Candidates(a + b) == Candidates(a) + Candidates(b)
  {
    ConcatAppend(a, b, ItemCandidates);
  }

  /** The same for the entries of a nested list. */
  lemma NestedCandidatesAppend(a: seq<Json>, b: seq<Json>, quality: Json, size: Json)
    ensures NestedCandidates(a + b, quality, size) == NestedCandidates(a, quality, size) + NestedCandidates(b, quality, size)
  {
    ConcatAppend(a, b, NestedOf(quality, size));
  }

  /** Once an unhashable URL has been met, nothing after it matters. */
  lemma {:induction false} FirstUnhashableAppend(a: seq<Link>, b: seq<Link>)
    ensures FirstUnhashable(a + b) == if FirstUnhashable(a).Some? then FirstUnhashable(a) else FirstUnhashable(b)
  {
    if b == [] {
      assert a + b == a;
    } else {
      var b' := b[..|b| - 1];
      assert (a + b)[..|a + b| - 1] == a + b';
      FirstUnhashableAppend(a, b');
    }
  }

  /** Records met after an unhashable URL do not change which URL raises. */
  lemma FirstUnhashableExtend(p: seq<Link>, x: seq<Link>, y: seq<Link>)
    requires FirstUnhashable(p + x).Some?
    ensures FirstUnhashable(p + (x + y)) == FirstUnhashable(p + x)
  {
    assert p + (x + y) == (p + x) + y;
    FirstUnhashableAppend(p + x, y);
  }

  /** Every proposed record has a truthy URL. */
  lemma {:induction false} NestedCandidatesTruthy(nested: seq<Json>, quality: Json, size: Json)
    ensures forall c | c in NestedCandidates(nested, quality, size) :: Truthy(c.url)
    ensures |NestedCandidates(nested, quality, size)| <= |nested|
  {
    if nested != [] {
      NestedCandidatesTruthy(nested[..|nested| - 1], quality, size);
    }
  }

  /** Every proposed record has a truthy URL, and there are at most as many
      records as top-level items plus entries of walked nested lists. */
  lemma {:induction false} CandidatesTruthy(items: seq<Json>)
    ensures forall c | c in Candidates(items) :: Truthy(c.url)
    ensures |Candidates(items)| <= |items| + NestedEntries(items)
  {
    if items != [] {
      var item := items[|items| - 1];
      CandidatesTruthy(items[..|items| - 1]);
      if item.Obj? && NestedList(item.fields).Arr? {
        NestedCandidatesTruthy(NestedList(item.fields).items, ItemQuality(item.fields), ItemSize(item.fields));
      }
    }
  }

  /** The call raises exactly when some proposed URL is unhashable, and then
      on the first such URL: every record before it has a hashable URL. */
  lemma {:induction false} FirstUnhashableMeans(cs: seq<Link>)
    ensures FirstUnhashable(cs) == None <==> forall c | c in cs :: Hashable(c.url)
    ensures FirstUnhashable(cs).Some? ==>
              exists i | 0 <= i < |cs| :: cs[i].url == FirstUnhashable(cs).value && !Hashable(cs[i].url)
                                          && forall j | 0 <= j < i :: Hashable(cs[j].url)
  {
    if cs != [] {
      var p, last := cs[..|cs| - 1], cs[|cs| - 1];
      FirstUnhashableMeans(p);
      assert forall c | c in cs :: c in p || c == last;
      assert forall j | 0 <= j < |p| :: cs[j] == p[j];
      if FirstUnhashable(p).Some? {
        var i :| 0 <= i < |p| && p[i].url == FirstUnhashable(p).value && !Hashable(p[i].url)
                 && forall j | 0 <= j < i :: Hashable(p[j].url);
        assert cs[i] == p[i];
      } else if !Hashable(last.url) {
        assert forall j | 0 <= j < |p| :: p[j] in p;
        assert cs[|cs| - 1] == last;
      }
    }
  }

  /** Entries that are not dicts propose nothing: dropping them from a nested
      list changes nothing. */
  lemma {:induction false} NestedNonDictsIgnored(nested: seq<Json>, quality: Json, size: Json)
    ensures NestedCandidates(DictsOnly(nested), quality, size) == NestedCandidates(nested, quality, size)
  {
    if nested != [] {
      var p, last := nested[..|nested| - 1], nested[|nested| - 1];
      var tail := if last.Obj? then [last] else [];
      NestedNonDictsIgnored(p, quality, size);
      NestedCandidatesAppend(DictsOnly(p), tail, quality, size);
      if last.Obj? {
        assert [last][..0] == [];
      }
    }
  }

  /** Top-level items that are not dicts propose nothing: dropping them
      changes nothing. */
  lemma {:induction false} NonDictsIgnored(items: seq<Json>)
    ensures Candidates(DictsOnly(items)) == Candidates(items)
  {
    if items != [] {
      var p, last := items[..|items| - 1], items[|items| - 1];
      var tail := if last.Obj? then [last] else [];
      NonDictsIgnored(p);
      CandidatesAppend(DictsOnly(p), tail);
      if last.Obj? {
        assert [last][..0] == [];
      }
    }
  }

  // ---------------------------------------------------------------------
  // De-duplication: first occurrence wins.
  // ---------------------------------------------------------------------

  /** The set elements of `UrlKeys` are exactly the keys of the records. */
  lemma {:induction false} UrlKeysMembers(cs: seq<Link>)
    ensures forall c | c in cs :: HashKey(c.url) in UrlKeys(cs)
    ensures forall k | k in UrlKeys(cs) :: FirstWithKey(cs, k).Some?
    ensures forall k | k !in UrlKeys(cs) :: FirstWithKey(cs, k) == None
  {
    if cs != [] {
      UrlKeysMembers(cs[..|cs| - 1]);
      assert forall c | c in cs :: c in cs[..|cs| - 1] || c == cs[|cs| - 1];
    }
  }

  /** De-duplication keeps a record for every URL proposed, and nothing else. */
  lemma {:induction false} DedupKeys(cs: seq<Link>)
    ensures UrlKeys(Dedup(cs)) == UrlKeys(cs)
    ensures |Dedup(cs)| <= |cs|
    ensures forall c | c in Dedup(cs) :: c in cs
  {
    if cs != [] {
      var p, last := cs[..|cs| - 1], cs[|cs| - 1];
      DedupKeys(p);
      if HashKey(last.url) !in UrlKeys(p) {
        assert (Dedup(p) + [last])[..|Dedup(p)|] == Dedup(p);
      }
    }
  }

  /** No two kept records share a URL (nor a set element: True and 1 count
      as one). */
  lemma {:induction false} DedupDistinct(cs: seq<Link>)
    ensures forall i, j | 0 <= i < j < |Dedup(cs)| :: HashKey(Dedup(cs)[i].url) != HashKey(Dedup(cs)[j].url)
    ensures forall i, j | 0 <= i < j < |Dedup(cs)| :: Dedup(cs)[i].url != Dedup(cs)[j].url
  {
    if cs != [] {
      var p, last := cs[..|cs| - 1], cs[|cs| - 1];
      DedupDistinct(p);
      DedupKeys(p);
      UrlKeysMembers(Dedup(p));
    }
  }

  /** The record kept for a URL is the first record proposed with that URL:
      later duplicates, with their own quality and size, are dropped. */
  lemma {:induction false} DedupFirstWins(cs: seq<Link>)
    ensures forall c | c in Dedup(cs) :: FirstWithKey(cs, HashKey(c.url)) == Some(c)
  {
    if cs != [] {
      var p, last := cs[..|cs| - 1], cs[|cs| - 1];
      DedupFirstWins(p);
      DedupKeys(p);
      UrlKeysMembers(p);
      UrlKeysMembers(Dedup(p));
    }
  }

  /** Records proposed later never reorder or remove records kept earlier:
      the output for a prefix of the traversal is a prefix of the output. */
  lemma {:induction false} DedupPrefix(a: seq<Link>, b: seq<Link>)
    ensures Dedup(a) <= Dedup(a + b)
  {
    if b == [] {
      assert a + b == a;
    } else {
      var b' := b[..|b| - 1];
      assert (a + b)[..|a + b| - 1] == a + b';
      DedupPrefix(a, b');
    }
  }

  // ---------------------------------------------------------------------
  // Properties of a whole normalization call.
  // ---------------------------------------------------------------------

  /** A value that is not a list after unwrapping normalizes to no links. */
  lemma NotAListGivesNothing(raw: Json)
    requires !Unwrap(raw).Arr?
    ensures Normalize(raw) == Links([])
  {
  }

  /** Every output URL is truthy and hashable, no two are equal, and there
      are at most as many records as top-level items plus walked nested
      entries. */
  lemma NormalizeLinks(raw: Json)
    requires Normalize(raw).Links?
    ensures forall c | c in Normalize(raw).links :: Truthy(c.url) && Hashable(c.url)
    ensures forall i, j | 0 <= i < j < |Normalize(raw).links| :: Normalize(raw).links[i].url != Normalize(raw).links[j].url
    ensures Unwrap(raw).Arr? ==>
              |Normalize(raw).links| <= |Unwrap(raw).items| + NestedEntries(Unwrap(raw).items)
  {
    var list := Unwrap(raw);
    if list.Arr? {
      var cs := Candidates(list.items);
      CandidatesTruthy(list.items);
      FirstUnhashableMeans(cs);
      DedupKeys(cs);
      DedupDistinct(cs);
    }
  }

  /** The call raises `TypeError` exactly when the traversal proposes a list
      or dict URL, and it raises on the first one proposed. */
  lemma NormalizeRaises(raw: Json)
    ensures Normalize(raw).Unhashable? <==>
              Unwrap(raw).Arr? && exists c | c in Candidates(Unwrap(raw).items) :: !Hashable(c.url)
    ensures Normalize(raw).Unhashable? ==>
              exists i | 0 <= i < |Candidates(Unwrap(raw).items)| ::
                Candidates(Unwrap(raw).items)[i].url == Normalize(raw).url && !Hashable(Normalize(raw).url)
                && forall j | 0 <= j < i :: Hashable(Candidates(Unwrap(raw).items)[j].url)
  {
    if Unwrap(raw).Arr? {
      FirstUnhashableMeans(Candidates(Unwrap(raw).items));
    }
  }

  /** The output holds one record per distinct URL proposed by the traversal,
      and it is the first record proposed with that URL. */
  lemma NormalizeFirstWins(raw: Json)
    requires Unwrap(raw).Arr? && Normalize(raw).Links?
    ensures UrlKeys(Normalize(raw).links) == UrlKeys(Candidates(Unwrap(raw).items))
    ensures forall c | c in Normalize(raw).links ::
              FirstWithKey(Candidates(Unwrap(raw).items), HashKey(c.url)) == Some(c)
  {
    DedupKeys(Candidates(Unwrap(raw).items));
    DedupFirstWins(Candidates(Unwrap(raw).items));
  }

  /** Items are handled in input order: the records the first `i` items
      contribute come first and are unchanged by the items after them; and
      when a later item raises the TypeError, so does the whole call. */
  lemma NormalizePrefix(items: seq<Json>, i: nat)
    requires i <= |items|
    ensures Normalize(Arr(items[..i])).Unhashable? ==> Normalize(Arr(items)) == Normalize(Arr(items[..i]))
    ensures Normalize(Arr(items)).Links? ==>
              Normalize(Arr(items[..i])).Links? && Normalize(Arr(items[..i])).links <= Normalize(Arr(items)).links
  {
    assert items == items[..i] + items[i..];
    CandidatesAppend(items[..i], items[i..]);
    FirstUnhashableAppend(Candidates(items[..i]), Candidates(items[i..]));
    DedupPrefix(Candidates(items[..i]), Candidates(items[i..]));
  }

  /** Non-dict top-level items never affect the result. */
  lemma NormalizeIgnoresNonDicts(items: seq<Json>)
    ensures Normalize(Arr(DictsOnly(items))) == Normalize(Arr(items))
  {
    NonDictsIgnored(items);
  }

  /** Nested entries are not walked further: their own `links`, `files` and
      `options` never matter. */
  lemma NestedNotRecursed(nested: map<string, Json>, key: string, v: Json, quality: Json, size: Json)
    requires key == "links" || key == "files" || key == "options"
    ensures NestedCandidate(Obj(nested[key := v]), quality, size) == NestedCandidate(Obj(nested), quality, size)
  {
  }

  /** A nested entry's `directLink` is never consulted. */
  lemma NestedIgnoresDirectLink(nested: map<string, Json>, v: Json)
    ensures NestedUrl(nested["directLink" := v]) == NestedUrl(nested)
  {
  }
}
