/** Worked inputs for `normalize_download_links`, each with the result the
    model gives for it. */
module Scenarios {
  import opened Json
  import opened DownloadLinks

  /** A payload under the `results` key: the first item has a direct URL
      "a" and a nested `files` list (a link to "b", a number, and "a" again
      with its own quality); then a string; then an item whose `download` is
      "b" again. */
  const Nested: seq<Json> := [Obj(map["link" := Str("b")]), Int(7), Obj(map["url" := Str("a"), "quality" := Str("1080p")])]
  const Item: map<string, Json> := map["url" := Str("a"), "quality" := Str("720p"), "files" := Arr(Nested)]
  const Items: seq<Json> := [Obj(Item), Str("junk"), Obj(map["download" := Str("b"), "size" := Str("1GB")])]
  const Payload: Json := Obj(map["results" := Arr(Items)])

  /** The records of two entries. */
  lemma ConcatOfTwo(xs: seq<Json>, f: Json -> seq<Link>)
    requires |xs| == 2
    ensures Concat(xs, f) == f(xs[0]) + f(xs[1])
  {
    assert xs[..1][..0] == [];
    assert xs[..2] == xs;
    assert Concat(xs[..1], f) == f(xs[0]);
  }

  /** Two items proposing one record each. */
  lemma PairCandidates(one: Json, two: Json, x: Link, y: Link)
    requires ItemCandidates(one) == [x] && ItemCandidates(two) == [y]
    ensures Candidates([one, two]) == [x, y]
  {
    ConcatOfTwo([one, two], ItemCandidates);
  }

  /** The records of three entries. */
  lemma ConcatOfThree(xs: seq<Json>, f: Json -> seq<Link>)
    requires |xs| == 3
    ensures Concat(xs, f) == f(xs[0]) + f(xs[1]) + f(xs[2])
  {
    assert xs[..3] == xs;
    ConcatOfTwo(xs[..2], f);
    assert xs[..2][0] == xs[0] && xs[..2][1] == xs[1];
  }

  /** A nested entry with only a `link` takes the item's quality and size. */
  lemma ExampleNestedLink(q: Json, s: Json)
    ensures NestedCandidate(Nested[0], q, s) == [Link(q, s, Str("b"))]
  {
  }

  /** A nested entry with its own quality keeps it. */
  lemma ExampleNestedOwnQuality(q: Json, s: Json)
    ensures NestedCandidate(Nested[2], q, s) == [Link(Str("1080p"), s, Str("a"))]
  {
  }

  /** Nested entries take the item's quality and size unless they have
      their own; the number proposes nothing. */
  lemma ExampleNested()
    ensures NestedCandidates(Nested, Str("720p"), Str("")) == [Link(Str("720p"), Str(""), Str("b")), Link(Str("1080p"), Str(""), Str("a"))]
  {
    var q, s := Str("720p"), Str("");
    ConcatOfThree(Nested, NestedOf(q, s));
    ExampleNestedLink(q, s);
    ExampleNestedOwnQuality(q, s);
    assert NestedCandidate(Nested[1], q, s) == [];
  }

  /** The fields of the first item that the traversal reads. */
  lemma ExampleItemFields()
    ensures DirectUrl(Item) == Str("a") && ItemQuality(Item) == Str("720p") && ItemSize(Item) == Str("")
    ensures NestedList(Item) == Arr(Nested)
  {
  }

  /** The item's direct record comes before its nested records. */
  lemma ExampleItem()
    ensures ItemCandidates(Obj(Item)) == [Link(Str("720p"), Str(""), Str("a")), Link(Str("720p"), Str(""), Str("b")),
                                          Link(Str("1080p"), Str(""), Str("a"))]
  {
    ExampleItemFields();
    ExampleNested();
  }

  /** A `download` URL counts; quality defaults to "Unknown". */
  lemma ExampleLastItem()
    ensures ItemCandidates(Items[2]) == [Link(Str("Unknown"), Str("1GB"), Str("b"))]
  {
  }

  /** The whole traversal: the string item proposes nothing. */
  lemma ExampleCandidates()
    ensures Candidates(Items) == [Link(Str("720p"), Str(""), Str("a")), Link(Str("720p"), Str(""), Str("b")),
                                  Link(Str("1080p"), Str(""), Str("a")), Link(Str("Unknown"), Str("1GB"), Str("b"))]
  {
    var first, junk, last := Obj(Item), Str("junk"), Items[2];
    assert Items == [first, junk, last];
    ExampleItem();
    ExampleLastItem();
    ConcatOfThree([first, junk, last], ItemCandidates);
    assert ItemCandidates(junk) == [];
  }

  /** Later records with an already-seen URL are dropped, whatever their
      quality and size. */
  lemma ExampleDedup(a: Link, b: Link, a': Link, b': Link)
    requires a.url == a'.url == Str("a") && b.url == b'.url == Str("b")
    ensures FirstUnhashable([a, b, a', b']) == None
    ensures Dedup([a, b, a', b']) == [a, b]
  {
    var cs := [a, b, a', b'];
    assert cs[..3][..2] == cs[..2] == [a, b];
    assert cs[..2][..1] == cs[..1] == [a];
    assert [a][..0] == [];
    assert UrlKeys([a]) == {Str("a")};
    assert UrlKeys([a, b]) == {Str("a"), Str("b")};
    assert UrlKeys(cs[..3]) == {Str("a"), Str("b")};
    assert Dedup([a]) == [a];
    assert Dedup([a, b]) == [a, b];
    assert Dedup(cs[..3]) == [a, b];
    assert FirstUnhashable([a]) == None;
    assert FirstUnhashable([a, b]) == None;
    assert FirstUnhashable(cs[..3]) == None;
  }

  /** The container key `results` is used (`downloadLinks` is absent); the
      duplicates of "a" and "b" are dropped and the first records kept. */
  lemma Example()
    ensures Normalize(Payload) == Links([Link(Str("720p"), Str(""), Str("a")), Link(Str("720p"), Str(""), Str("b"))])
  {
    assert ContainerKeys[0] == "downloadLinks" && ContainerKeys[1] == "results";
    assert Get(Payload.fields, "downloadLinks") == Null;
    assert Unwrap(Payload) == Arr(Items);
    ExampleCandidates();
    ExampleDedup(Link(Str("720p"), Str(""), Str("a")), Link(Str("720p"), Str(""), Str("b")),
                 Link(Str("1080p"), Str(""), Str("a")), Link(Str("Unknown"), Str("1GB"), Str("b")));
  }

  /** An item holding a single truthy `url` or `link` and nothing else. */
  lemma ExampleUrlOnly(key: string, u: Json)
    requires key == "url" || key == "link"
    requires Truthy(u)
    ensures ItemCandidates(Obj(map[key := u])) == [Link(Str("Unknown"), Str(""), u)]
  {
  }

  /** The same item with a quality. */
  lemma ExampleUrlWithQuality(key: string, u: Json, quality: Json)
    requires key == "url" || key == "link"
    requires Truthy(u)
    ensures ItemCandidates(Obj(map[key := u, "quality" := quality])) == [Link(Or(quality, Str("Unknown")), Str(""), u)]
  {
  }

  /** How two records fare: the first unhashable URL raises; otherwise the
      second is dropped when its URL stands for the same set element. */
  lemma ExamplePair(x: Link, y: Link)
    ensures FirstUnhashable([x, y]) == if !Hashable(x.url) then Some(x.url) else if !Hashable(y.url) then Some(y.url) else None
    ensures Dedup([x, y]) == if HashKey(x.url) == HashKey(y.url) then [x] else [x, y]
  {
    assert [x, y][..1] == [x];
    assert [x][..0] == [];
    assert UrlKeys([x]) == {HashKey(x.url)};
    assert Dedup([x]) == [x];
    assert FirstUnhashable([x]) == if Hashable(x.url) then None else Some(x.url);
  }

  lemma TrueIsOneCandidates()
    ensures Candidates([Obj(map["url" := Bool(true)]), Obj(map["link" := Int(1), "quality" := Str("HD")])])
            == [Link(Str("Unknown"), Str(""), Bool(true)), Link(Str("HD"), Str(""), Int(1))]
  {
    var one, two := Obj(map["url" := Bool(true)]), Obj(map["link" := Int(1), "quality" := Str("HD")]);
    ExampleUrlOnly("url", Bool(true));
    ExampleUrlWithQuality("link", Int(1), Str("HD"));
    assert Or(Str("HD"), Str("Unknown")) == Str("HD");
    PairCandidates(one, two, Link(Str("Unknown"), Str(""), Bool(true)), Link(Str("HD"), Str(""), Int(1)));
  }

  /** Python's True and 1 are one set element: the second item is dropped
      as a duplicate of the first. */
  lemma ExampleTrueIsOne()
    ensures Normalize(Arr([Obj(map["url" := Bool(true)]), Obj(map["link" := Int(1), "quality" := Str("HD")])]))
            == Links([Link(Str("Unknown"), Str(""), Bool(true))])
  {
    TrueIsOneCandidates();
    ExamplePair(Link(Str("Unknown"), Str(""), Bool(true)), Link(Str("HD"), Str(""), Int(1)));
  }

  const ListUrlItems: seq<Json> := [Obj(map["url" := Str("a")]), Obj(map["url" := Arr([Str("a")])])]

  /** The last container key, `data`, is used when no earlier one holds a list. */
  lemma ExampleDataKey()
    ensures Unwrap(Obj(map["data" := Arr(ListUrlItems)])) == Arr(ListUrlItems)
  {
    var raw := Obj(map["data" := Arr(ListUrlItems)]);
    assert ContainerKeys == ["downloadLinks", "results", "links", "downloads", "data"];
    assert Get(raw.fields, "downloadLinks") == Get(raw.fields, "results") == Null;
    assert Get(raw.fields, "links") == Get(raw.fields, "downloads") == Null;
    assert forall j | 0 <= j < 4 :: Get(raw.fields, ContainerKeys[j]) == Null;
    assert Get(raw.fields, ContainerKeys[4]) == Arr(ListUrlItems);
  }

  lemma ListUrlCandidates()
    ensures Candidates(ListUrlItems) == [Link(Str("Unknown"), Str(""), Str("a")), Link(Str("Unknown"), Str(""), Arr([Str("a")]))]
  {
    var good, bad := Obj(map["url" := Str("a")]), Obj(map["url" := Arr([Str("a")])]);
    assert ListUrlItems == [good, bad];
    ExampleUrlOnly("url", Str("a"));
    ExampleUrlOnly("url", Arr([Str("a")]));
    PairCandidates(good, bad, Link(Str("Unknown"), Str(""), Str("a")), Link(Str("Unknown"), Str(""), Arr([Str("a")])));
  }

  /** A truthy list URL raises TypeError even after good records. */
  lemma ExampleListUrlRaises()
    ensures Normalize(Obj(map["data" := Arr(ListUrlItems)])) == Unhashable(Arr([Str("a")]))
  {
    ExampleDataKey();
    ListUrlCandidates();
    ExamplePair(Link(Str("Unknown"), Str(""), Str("a")), Link(Str("Unknown"), Str(""), Arr([Str("a")])));
  }
}
