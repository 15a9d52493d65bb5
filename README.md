# Download-link normalization of the movie bot's webhook

The movie-search bot's webhook (`api/webhook.py`) receives JSON from an upstream
movie API and has to show the user a list of download links. The APIs disagree on the
payload's shape. Links may sit directly in a list or under one of several container
keys. Each item names its URL under one of several keys. An item may carry a nested
list of further links. The function `normalize_download_links` flattens all of this
into one ordered list of `{quality, size, url}` records in which no URL repeats.
This project models that function and proves what it computes. It also models the
truncation of a movie's plot to 300 characters in the details message.

The model has four modules:

- `Json` (`json.dfy`) models decoded JSON values: None, bool, int, str, list and dict.
  It also models the Python semantics the normalizer relies on:
  - truthiness, which is what `or` and `if` test;
  - `dict.get`, which reads a missing key as None;
  - `a or b`, as the function `Or`;
  - which values a `set` can hold. Lists and dicts cannot; testing them for
    membership raises `TypeError`. `True` and `1` are one element, and so are
    `False` and `0`.
- `DownloadLinks` (`download_links.dfy`) is the reference definition, `Normalize`.
  - `Unwrap` chooses the list to read.
  - `Candidates` lists, in traversal order, every record the loops propose.
  - `Dedup` keeps the first record for each set element a URL stands for.
  - `FirstUnhashable` finds the first list or dict URL, where Python's `TypeError`
    cuts the call short.
  - The lemmas state the normalizer's promises in terms of these definitions.
- `Webhook` (`webhook.dfy`) holds the imperative normalizer, `NormalizeDownloadLinks`.
  It follows the source's shape:
  - a `for`/`break` loop unwraps the container;
  - an outer loop runs over the items and an inner loop over the nested entries;
  - the loops append to a sequence and add to a set.
  - It is proved to return exactly `Normalize(rawLinks)`.

  The module also holds the plot truncation, `TruncatePlot`.
- `Scenarios` (`scenarios.dfy`) works out concrete inputs and their results.

A call that would raise `TypeError` is modelled as the outcome `Unhashable(url)`,
which carries the offending URL. It is not excluded by a precondition.

The function accepts any truthy URL, copies quality and size unchanged, walks exactly
one nested level, and raises `TypeError` on a truthy list or dict URL.

## Model

| member | source | states |
|---|---|---|
| Webhook.NormalizeDownloadLinks | api/webhook.py:51-103 | The method's result is exactly `Normalize(rawLinks)`: the deduplicated records in traversal order, or the `TypeError` outcome for the first list or dict URL reached. The loop invariant is that the output so far and the seen set are `Dedup` and `UrlKeys` of the records proposed by the items already visited. |
| Webhook.UnwrapContainer | api/webhook.py:53-58 | The `for`/`break` loop over the five container keys yields exactly `Unwrap(rawLinks)`. |
| Webhook.OfferItem | api/webhook.py:66-101 | One pass of the outer loop extends the output and the seen set to `Dedup` and `UrlKeys` of the records proposed so far, followed by the item's own records. It raises exactly when those records reach an unhashable URL. |
| Webhook.OfferDirect | api/webhook.py:70-82 | A dict item's truthy direct URL is offered with the item's quality and size. A falsy one changes nothing. |
| Webhook.OfferNested | api/webhook.py:84-101 | The inner loop extends the output and the seen set by the records of the nested list. It stops at the first unhashable URL, and the outcome is the same as if every entry had been offered. |
| Webhook.OfferEntry | api/webhook.py:86-101 | A nested entry adds a record only when it is a dict with a truthy URL. That record inherits the parent's quality and size where its own are falsy. |
| Webhook.Offer | api/webhook.py:80-82 | A proposed record is appended and its URL added to the seen set only when the URL's set element is new. A list or dict URL raises `TypeError`. |
| Webhook.RaisesFromPrefix | api/webhook.py:66-101 | If the records of the first k items reach an unhashable URL, the whole call raises on that same URL. |
| Webhook.NestedRaisesFromPrefix | api/webhook.py:86-101 | The same holds within a nested list: the later entries cannot change which URL raises. |
| Webhook.TruncatePlot | api/webhook.py:400-401 | A plot of at most 300 characters is unchanged. A longer plot becomes exactly 300 characters: its first 297 characters followed by `...`. |
| Webhook.TruncatePlotBounded | api/webhook.py:400-401 | The shown plot never exceeds 300 characters, and truncating twice equals truncating once. The plot is left unchanged if and only if it has at most 300 characters. |
| Json.Or | api/webhook.py:70-78 | Python's `a or b` is truthy if and only if one operand is. It is `a` when `a` is truthy and `b` otherwise. |
| Json.HashKey | api/webhook.py:80-82 | The set element a hashable value stands for has the value's truthiness and is never a bool. `True` and `False` stand for `1` and `0`. |
| DownloadLinks.ListUnder | api/webhook.py:54-58 | Returns the value of the first key, in key order, whose value is a list. If no key holds a list, it returns the given default. |
| DownloadLinks.Unwrap | api/webhook.py:53-58 | A dict becomes the list under the first of `downloadLinks`, `results`, `links`, `downloads`, `data` that holds a list. It stays the dict when none does. A non-dict is kept unchanged. |
| DownloadLinks.ItemQuality | api/webhook.py:70 | An item's quality is its truthy `quality`, else its truthy `label`, else `"Unknown"`. It is always truthy. |
| DownloadLinks.ItemSize | api/webhook.py:71 | An item's size is its truthy `size`, else `""`. |
| DownloadLinks.DirectUrl | api/webhook.py:73-78 | The direct URL is the first truthy value of `url`, `link`, `directLink`, `download`. It is truthy if and only if one of them is. |
| DownloadLinks.NestedList | api/webhook.py:84 | The nested collection is the first truthy value of `links`, `files`, `options`. If none is truthy, it is the `options` value. |
| DownloadLinks.NestedUrl | api/webhook.py:90 | A nested URL is the first truthy value of `url`, `link`, `download`. It is truthy if and only if one of them is. |
| DownloadLinks.NestedQuality | api/webhook.py:96 | A nested record's quality is its own truthy `quality`, else its truthy `label`, else the parent item's computed quality. |
| DownloadLinks.NestedSize | api/webhook.py:97 | A nested record's size is its own truthy `size`, else the parent item's computed size. |
| DownloadLinks.Normalize | api/webhook.py:51-103 | The reference result of `normalize_download_links`. A value that is not a list after unwrapping gives no records. Otherwise the result is the raised `TypeError` for the first list or dict URL proposed, or else the deduplicated records in traversal order. |
| DownloadLinks.ItemCandidates | api/webhook.py:66-101 | The records one top-level entry proposes. A non-dict proposes none. A dict proposes its direct record first, then the records of its nested list, and only when that value is a list. |
| DownloadLinks.Candidates | api/webhook.py:66-101 | The records proposed by the items, item by item in input order. |
| DownloadLinks.Dedup | api/webhook.py:80-101 | The records that pass the seen-set test: each is kept only if no earlier record's URL stands for the same set element. |
| DownloadLinks.FirstUnhashable | api/webhook.py:80-91 | The first proposed URL that the set membership test rejects with `TypeError`. |
| Json.Truthy | api/webhook.py:70-91 | Python's truthiness, which `or` and `if` test: None, False, zero and empty strings or containers are falsy. |
| Json.Get | api/webhook.py:55 | Python's `dict.get(key)`: a missing key reads as None. |
| Json.Hashable | api/webhook.py:80-91 | The values a Python `set` can be tested against: everything except lists and dicts. |
| DownloadLinks.DirectCandidate | api/webhook.py:73-81 | A dict item proposes one direct record exactly when its direct URL is truthy. The record carries the item's computed quality and size. |
| DownloadLinks.NestedCandidate | api/webhook.py:87-100 | A nested entry proposes a record only when it is a dict with a truthy nested URL. The record's quality and size fall back to the parent's. |
| DownloadLinks.NestedCandidates | api/webhook.py:86-101 | The records of a nested list, entry by entry in list order. |
| DownloadLinks.NestedRecords | api/webhook.py:84-85 | An item's nested records, which exist only when its chosen nested collection is a list. |
| DownloadLinks.UrlKeys | api/webhook.py:64-101 | The contents of the seen set: the set elements of the URLs proposed so far. |
| DownloadLinks.ConcatAppend | api/webhook.py:66-101 | The records of two consecutive runs of entries are the records of the first run followed by those of the second. |
| DownloadLinks.CandidatesAppend | api/webhook.py:66-101 | Items are traversed in input order: the records of `a + b` are the records of `a` followed by those of `b`. |
| DownloadLinks.NestedCandidatesAppend | api/webhook.py:86-101 | Nested entries are traversed in list order. |
| DownloadLinks.FirstUnhashableAppend | api/webhook.py:80-91 | Once an unhashable URL has been met, the records after it do not change which URL raises. |
| DownloadLinks.NestedCandidatesTruthy | api/webhook.py:90-91 | Every nested record has a truthy URL. A nested list yields at most one record per entry. |
| DownloadLinks.CandidatesTruthy | api/webhook.py:80-101 | Every proposed record has a truthy URL. There are at most as many records as items plus entries of the nested lists walked. |
| DownloadLinks.FirstUnhashableMeans | api/webhook.py:80-91 | A sequence of records raises if and only if some URL in it is a list or dict. When it raises, the raised value is the URL of a proposed record, that URL is a list or dict, and every earlier URL is hashable. |
| DownloadLinks.NestedNonDictsIgnored | api/webhook.py:87-88 | Dropping the entries of a nested list that are not dicts changes none of its records. |
| DownloadLinks.NonDictsIgnored | api/webhook.py:67-68 | Dropping the top-level items that are not dicts changes none of the records. |
| DownloadLinks.UrlKeysMembers | api/webhook.py:82-101 | The seen set holds exactly the set elements of the URLs proposed: each proposed URL's element is in it, and each element in it has a first record. |
| DownloadLinks.DedupKeys | api/webhook.py:80-101 | The kept records cover every URL proposed and nothing else. They are records that were proposed, and there are no more of them than were proposed. |
| DownloadLinks.DedupDistinct | api/webhook.py:80-101 | No two kept records share a URL or a set element. |
| DownloadLinks.DedupFirstWins | api/webhook.py:80-101 | The record kept for a URL is the first record proposed with that URL's set element. Later duplicates, with their own quality and size, are dropped. |
| DownloadLinks.DedupPrefix | api/webhook.py:81-101 | The output only grows at its end: the output for a prefix of the records is a prefix of the output. |
| DownloadLinks.NotAListGivesNothing | api/webhook.py:60-61 | A value that is not a list after unwrapping gives an empty result. |
| DownloadLinks.NormalizeLinks | api/webhook.py:80-101 | Every output URL is truthy and hashable, and no two are equal. There are at most as many records as items plus walked nested entries. |
| DownloadLinks.NormalizeRaises | api/webhook.py:80-91 | A call raises `TypeError` if and only if the traversal proposes a list or dict URL. It raises on the first such URL proposed, so a payload whose proposed URLs are all strings never raises. |
| DownloadLinks.NormalizeFirstWins | api/webhook.py:80-101 | The output has one record per distinct URL proposed, and that record is the first one proposed with the URL. |
| DownloadLinks.NormalizePrefix | api/webhook.py:66-101 | Records from earlier items come first and are unchanged by later items. If the earlier items raise, the whole call raises on the same URL. |
| DownloadLinks.NormalizeIgnoresNonDicts | api/webhook.py:66-68 | Non-dict top-level items never affect the result. |
| DownloadLinks.NestedNotRecursed | api/webhook.py:86-101 | A nested entry's own `links`, `files` and `options` never matter: there is no second level. |
| DownloadLinks.NestedIgnoresDirectLink | api/webhook.py:90 | A nested entry's `directLink` is never consulted. |
| Scenarios.ExampleNested | api/webhook.py:86-101 | In the worked example, nested entries inherit the item's quality and size unless they have their own, and a number entry adds nothing. |
| Scenarios.ExampleItem | api/webhook.py:66-101 | In the worked example, the item's direct record comes before its nested records. |
| Scenarios.ExampleLastItem | api/webhook.py:70-81 | In the worked example, an item with only a `download` URL and a size gets that URL and quality `"Unknown"`. |
| Scenarios.Example | api/webhook.py:51-103 | A payload under `results` normalizes to the two first-seen records. The later duplicates of both URLs are dropped. |
| Scenarios.ExampleTrueIsOne | api/webhook.py:80-82 | A URL `1` after a URL `True` is dropped as a duplicate. |
| Scenarios.ExampleDataKey | api/webhook.py:53-58 | In the worked example, the last container key, `data`, is used because no earlier key holds a list. |
| Scenarios.ExampleListUrlRaises | api/webhook.py:80-82 | A truthy list URL raises `TypeError`, even after good records. |

## Left out

- `bot.py` is not part of this model. It is the polling variant of the bot, made of
  conversation handlers, HTTP calls, a health server and message rendering, and it
  does not normalize links.
- The async handlers of `api/webhook.py` are not modelled: `search_provider`,
  `search_movies`, `back_to_results` and the fetching and rendering parts of
  `select_movie`. They are network I/O and Telegram API calls.
- The HTTP request handler, the event-loop plumbing, the application singleton and
  the webhook registration are not modelled. They are process wiring.
- The keyboard and button assembly are not modelled, nor the streaming URL built
  with `urllib.parse.quote` (api/webhook.py:418-444). They are presentation code
  around a library call.
- The `details.get(...) or ...` choice of the value to normalize and the fallback
  fetch from `/magiclinks` (api/webhook.py:378-391) are not modelled. They are glue
  around network I/O. The model takes the already chosen value as `rawLinks`.
- Floating-point JSON numbers are not modelled. Python's equality across numeric
  types is modelled only for `True`/`1` and `False`/`0`. A float such as `1.0` would
  also share a set element with `1`.
- Dict keys are strings, as decoded JSON gives them.
- Webhook.TruncatePlot: takes the plot as a string. In the source a null, bool or number
  plot makes `len` raise `TypeError` (line 400). A list or dict plot of at most 300
  elements passes through unchanged. A longer list is sliced, and then `+ "..."` raises
  `TypeError`. A longer dict raises at the slice.
  String length is counted in Unicode scalar values, which matches Python's code
  points for text without lone surrogates.
