# conjure: a Dafny model of the store, the memoizer and the page builder

This project models three parts of the `conjure` library.

- **The embedded store** (`conjure/storage.py`). An LMDB environment holds named sub-databases, each a table of byte keys in ascending lexicographic order.
  An `LmdbCollection` owns one data partition. It can also keep a change feed: every `put` files a feed entry `base_key + '_' + timestamp -> key` and records that feed key as the partition's offset, in the same transaction.
  The model covers reads, deletes, lengths, the prefix-bounded cursor scan `iter_prefix`, the feed, the offset slot, index partitions and `public_uri`.
- **The two-tier store** (`LocalCollectionWithBackup`). Reads go to the local tier first. On a local miss they read the backup and write the value back to the local tier. Writes go to the local tier, then the backup. Scans, the feed and the offset belong to the local tier.
- **The memoizer** (`conjure/decorate.py`). `Conjure` wraps a function. The store key is the UTF-8 encoding of `identifier + delimiter + params-name`. A call returns the stored result when there is one and otherwise computes it and stores it.
- **The page builder** (`conjure/article.py`). This covers:
  - the four embeddable components and their `render`/`html`/`markdown`;
  - the split of a source file's lines around its markdown chunks (`classify_chunks`);
  - the loop that assembles the page content;
  - the entry loop of the table of contents.

Python's `str.encode`/`bytes.decode` are modelled as strict UTF-8. `strip`, `join`, list slicing, `'\t' * n` and `str(int)` are modelled on Dafny strings.

Files:
- `octets.dfy`: bytes.
- `outcomes.dfy`: `Option`, `Result` and the Python exceptions that matter here.
- `utf8.dfy`: encoding, decoding, `ensure_bytes`, `ensure_str`.
- `byteorder.dfy`: LMDB's key order.
- `tables.dfy`: one sorted sub-database.
- `storage.dfy`: the environment, both collections, and the `Store` a `Conjure` writes through.
- `feeds.dfy`: what the feed yields after a series of writes, and two small feeds that show its filter and its cursor.
- `decorate.py` is modelled in `decorate.dfy`.
- `pytext.dfy`: the Python string operations.
- `article.dfy`: the page builder.

Where the code and its documentation or tests disagree, the model follows the code:
- `feed(offset)` includes the entry at `offset` itself, because the cursor's `set_range` positions at the first key at or after it.
- The feed's filter is `key.startswith(base_key)`. So the feed of base `ab` also yields entries of a base `abc` that extends it, not only the entries of one base key.
- When no key is at or after the start, `set_range` leaves the cursor unpositioned. py-lmdb's `iternext` then begins at the first key of the database. So `iter_prefix` and `feed` from a start past the last key read from the beginning, not nothing. The model follows that documented cursor behaviour.
- The two-tier `public_uri` is answered by the backup, not the local tier.
- A failed write-back during a two-tier read is not swallowed. The read raises that error.
- `render('markdown')` raises `NotImplementedError` for every component, although `tests/test_article.py` expects a value.

## Model

| member | source | states |
|---|---|---|
| Utf8.EnsureBytes | conjure/storage.py:15-19 | a memoryview becomes its bytes and bytes pass through unchanged; text becomes bytes that decode back to that text |
| Utf8.EnsureStr | conjure/storage.py:22-23 | text passes through; bytes are decoded strictly, so malformed UTF-8 raises `UnicodeDecodeError`; a memoryview has no `decode` and raises `AttributeError` |
| Utf8.EnsureRoundTrip | conjure/storage.py:15-23 | `ensure_str(ensure_bytes(s)) == s` for every text `s` |
| Utf8.DecodeEncode | conjure/storage.py:19 | decoding the encoding of any string gives the string back |
| Utf8.EncodeDecode | conjure/storage.py:23 | a byte string that decodes is exactly the encoding of what it decodes to |
| Utf8.EncodeInjective | conjure/decorate.py:60 | distinct strings have distinct encodings |
| Utf8.Decode | conjure/storage.py:23 | the only way a strict decode fails is `UnicodeDecodeError` |
| Storage.DataNameIsEncoded | conjure/storage.py:198 | the default partition name `'data'` is the byte constant of the model |
| Storage.OffsetsNameIsEncoded | conjure/storage.py:219 | the offsets database is named `b'offsets'` |
| Storage.FeedNameIsEncoded | conjure/storage.py:224 | the feed database is named `b'feed'` |
| Storage.UnderscoreIsEncoded | conjure/storage.py:331 | the `_` between base key and timestamp is one byte, 95 |
| Storage.DefaultBaseKey | conjure/storage.py:205-206 | succeeds exactly when the key is UTF-8 and otherwise raises `UnicodeDecodeError`; the result is a prefix of the key without `_`, followed in the key by `_` or by nothing |
| Storage.BaseUnique | conjure/storage.py:205-206 | a key has at most one such base key, so the default extractor's result is determined by that property |
| Storage.BaseKeyOfJoinedKey | conjure/storage.py:205-206 | the base key of `identifier + '_' + rest` is `identifier` when `identifier` has no `_` |
| Storage.FeedKey | conjure/storage.py:329-331 | the feed key exists exactly when base key and timestamp are UTF-8, and it is `base + b'_' + timestamp` |
| Storage.FeedKeyOrder | conjure/storage.py:329-332 | under one base key, feed keys sort as their timestamps do |
| Storage.FeedKeyKeepsBase | conjure/storage.py:329-331 | a feed key's default base key is the base key it was built from |
| Storage.Scan | conjure/storage.py:307-316 | the keys from the first key at or after `start` (or from the first key of the table when every key is before `start`), in order, up to the first key that lacks the prefix or the end of the table |
| Storage.ScanPastEnd | conjure/storage.py:309-312 | when every key is before `start`, the scan begins at the first key and yields only keys before `start` |
| Storage.RunIsRange | conjure/storage.py:294-316 | when some key is at or after `start` and `start` has the prefix, a key is yielded exactly when it is at or after `start` and has the prefix |
| Storage.ReadEntries | conjure/storage.py:270-277 | each scanned feed key is paired with the data key stored under it, in scan order |
| Storage.ScanEntries | conjure/storage.py:263-277 | the feed loop yields the feed entries from where the scan begins, in order, while their keys start with the prefix |
| Storage.WholeFeed | conjure/storage.py:263-277 | from the empty key under the empty prefix, the feed yields every entry of the feed database in order |
| Feeds.CommitAll | conjure/storage.py:322-333 | the sub-databases after a series of `put`s, one committed after another; they stay sorted |
| Feeds.FeedTableAfter | conjure/storage.py:327-332 | after a series of `put`s under one base key with increasing timestamps, the feed database is the old one plus one entry per write, `feed_key -> key` |
| Feeds.FeedInWriteOrder | conjure/storage.py:263-277 | for writes under one base key with increasing timestamps, all later than the feed keys already there, the feed from the first new feed key yields exactly those writes, in write order, each with its data key |
| Feeds.DefaultFeedPrefix | conjure/storage.py:267-268 | with the default extractor, the feed from a new feed key filters on that write's base key |
| Feeds.FeedPrefixSpansBases | conjure/storage.py:314 | from offset `ab_1` under prefix `ab`, the entry `abc_2` of another base is yielded too, since the filter is `startswith` |
| Feeds.FeedPastEndRestarts | conjure/storage.py:309-312 | from offset `a_3` over the feed `a_1, a_2`, both entries are yielded, because the cursor begins again at the first key |
| Storage.DefaultFeedStart | conjure/storage.py:267-268 | with no offset, the default extractor gives the empty prefix, so nothing is filtered out |
| Storage.LmdbCollection.Put | conjure/storage.py:322-333 | commits `key -> value` to the data partition; with a feed it also adds exactly one feed entry `feed_key -> key` and sets the offset to `feed_key`; it fails, changing nothing, exactly when the feed key cannot be built; without a feed, the feed and the offsets are untouched; other keys keep their values |
| Storage.LmdbCollection.constructor | conjure/storage.py:194-224 | a collection on the given environment with the given extractor (`None` selects the default), the data partition named by the bytes of `default_database_name`, the feed flag and the port |
| Storage.LmdbCollection.Get | conjure/storage.py:336-341 | returns the stored value, or raises `KeyError` for an absent key |
| Storage.LmdbCollection.Contains | conjure/storage.py:287-292 | true exactly when the key is stored |
| Storage.LmdbCollection.ContentLength | conjure/storage.py:279-285 | the stored value's length, or `KeyError` for an absent key |
| Storage.LmdbCollection.Delete | conjure/storage.py:318-320 | afterwards the key is absent and every other key keeps its value; an absent key is no error |
| Storage.LmdbCollection.IterPrefix | conjure/storage.py:294-316 | the data keys a scan from `start` under the optional prefix yields, in order, from where the cursor begins |
| Storage.LmdbCollection.Offset | conjure/storage.py:237-241 | the partition's slot in the offsets database, `None` when never set |
| Storage.LmdbCollection.SetOffset | conjure/storage.py:243-250 | sets this partition's offset slot and changes no other database |
| Storage.LmdbCollection.IndexStorage | conjure/storage.py:252-257 | a partition of the same environment under the new name, with the same extractor, no feed and no port |
| Storage.IndexWriteIsolated | conjure/storage.py:252-257 | a `put` on a partition without a feed always commits and changes only that partition's data database: not the parent's data, the feed or any offset |
| Storage.LmdbCollection.Feed | conjure/storage.py:263-277 | without a feed it raises `NotImplementedError`; an undecodable offset raises the extractor's error; otherwise it returns the feed entries from the offset on (inclusive), in order, while their keys start with the offset's base key |
| Storage.LmdbCollection.PublicUri | conjure/storage.py:226-235 | without a port it raises `NotImplementedError`; with a port, a base key the extractor cannot produce raises its error, and a base key or key that is not UTF-8 raises `UnicodeDecodeError`; otherwise the URL `http://localhost:{port}/functions/{base}/{key}` |
| Storage.DefaultCanPut | conjure/storage.py:322-333 | with the default extractor, every `put` of a UTF-8 key with a UTF-8 timestamp succeeds |
| Storage.LocalCollectionWithBackup.constructor | conjure/storage.py:356-359 | the local tier is a default `LmdbCollection` and the given collection is the backup; the store is valid when both environments are |
| Storage.LocalCollectionWithBackup.WithLocalBackup | conjure/storage.py:356-361 | both tiers are default `LmdbCollection`s on their own files; the store is valid when both environments are |
| Storage.LocalCollectionWithBackup.Get | conjure/storage.py:409-425 | a local hit is returned with nothing written; a key absent from both tiers raises `KeyError`; a backup hit is returned and written back to the local tier, with its feed entry, or the write-back's error is raised; no read changes what any key reads as |
| Storage.LocalCollectionWithBackup.Contains | conjure/storage.py:402-407 | `False` exactly when the key is in neither tier, `True` when it can be read; a stored key whose write-back fails raises that error, which is not a `KeyError`; the local tier changes only by that write-back, as in `Get` |
| Storage.LocalCollectionWithBackup.Put | conjure/storage.py:427-429 | writes the local tier, then the backup; if the local write fails nothing is written; afterwards the key reads as `value` and other keys are unchanged |
| Storage.LocalCollectionWithBackup.Delete | conjure/storage.py:393-395 | deletes from both tiers, so the key is absent and other keys are unchanged |
| Storage.LocalCollectionWithBackup.ContentLength | conjure/storage.py:379-383 | the local length, else the backup's, else `KeyError` |
| Storage.LocalCollectionWithBackup.IterPrefix | conjure/storage.py:397-400 | the scan of the local tier only, with the same cursor start |
| Storage.LocalCollectionWithBackup.Feed | conjure/storage.py:376-377 | the local tier's feed |
| Storage.LocalCollectionWithBackup.Offset | conjure/storage.py:366-368 | the local tier's offset |
| Storage.LocalCollectionWithBackup.SetOffset | conjure/storage.py:373-374 | sets the local tier's offset and leaves every read unchanged |
| Storage.LocalCollectionWithBackup.IndexStorage | conjure/storage.py:370-371 | an index partition of the local tier |
| Storage.LocalCollectionWithBackup.PublicUri | conjure/storage.py:385-386 | the backup's URL for the key, with the backup's errors: no port, the extractor's error, or `UnicodeDecodeError` |
| Storage.Store.Get | conjure/storage.py:336-341 | `storage[key]` on either store (the two-tier read is at lines 409-425): absent keys raise `KeyError`, readable keys return their value, a stored key whose two-tier read fails raises an error that is not `KeyError`, and no read changes what later reads return; the databases after the read are `AfterRead` of those before: only a two-tier read that misses locally and hits the backup writes, and only to the local tier |
| Storage.Store.Contains | conjure/storage.py:287-292 | `key in storage` on either store (the two-tier test is at lines 402-407): whether the key is stored, or the non-`KeyError` error of a failed write-back; the databases after are `AfterRead` of those before |
| Storage.Store.Put | conjure/storage.py:322-333 | `put` on either store (the two-tier write is at lines 427-429): succeeds exactly when the feed keys can be built; the databases after are `AfterPut` of those before: the embedded store commits the whole `put` or nothing, the two-tier store commits the local tier, then the backup, and stops at the first that fails; the key then reads as the value and others are unchanged |
| Decorate.Conjure.constructor | conjure/decorate.py:24-43 | stores its settings; the key delimiter defaults to `'_'` |
| Decorate.Conjure.Identifier | conjure/decorate.py:52-54 | the `identifier` property is the name `func_identifier` derives from the callable alone |
| Decorate.Conjure.IdentifyParams | conjure/decorate.py:56-57 | `identify_params` is the name `param_identifier` derives from the arguments alone |
| Decorate.Conjure.KeyPrefix | conjure/decorate.py:59-60 | every key of one function begins with the bytes of its identifier and delimiter, followed by the bytes of the arguments' name |
| Decorate.Conjure.Key | conjure/decorate.py:59-60 | the key decodes to `identifier + delimiter + identify_params(args)` |
| Decorate.Conjure.KeySeparatesParams | conjure/decorate.py:53-60 | two calls share a key exactly when their arguments have the same name |
| Decorate.Conjure.KeyBase | conjure/decorate.py:59-60 | with the default delimiter and an identifier free of `_`, the store's default base key of every key is the identifier, so one function's results share one feed |
| Decorate.Conjure.Exists | conjure/decorate.py:48-50 | true exactly when the key is stored; a stored key whose two-tier write-back fails raises that error, which is not a `KeyError`; the databases change only by that write-back, and not at all when the read needs none |
| Decorate.Conjure.Call | conjure/decorate.py:62-72 | a hit returns the deserialized stored bytes without computing; a miss computes once, stores the serialized result under the key and returns it; a stored key is never computed, and when its two-tier read fails in the write-back the error, which is not a `KeyError`, propagates; a hit writes nothing unless it is a two-tier write-back, and a miss changes the databases exactly as its `put`; other keys are unchanged |
| Decorate.Conjure.StoredKeysHit | conjure/decorate.py:62-67 | in any sequence of calls, a call whose key is already stored does not compute |
| Decorate.Conjure.ComputesAtMostOnce | conjure/decorate.py:62-72 | in any sequence of calls, the computation runs at most once per key, and only for keys not stored at the start |
| Decorate.Conjure.RunIsTransparent | conjure/decorate.py:62-72 | when the deserializer undoes the serializer, every call in a sequence returns what the function returns |
| Decorate.Conjure.SecondCallHits | conjure/decorate.py:62-72 | calling twice with the same new arguments computes once; the second call returns the stored result |
| Decorate.Conjure.CallAsWritten | conjure/decorate.py:62-72 | as written: a hit is as in `Call`; a miss computes and then raises `TypeError` at `self.storage[key] = raw`, storing nothing; the databases change only by a two-tier read's write-back |
| Decorate.Conjure.AsWrittenRecomputes | conjure/decorate.py:68-72 | as written, the same new arguments are computed again on the second call and both calls raise |
| Decorate.ConjureDecorator | conjure/decorate.py:143-164 | `conjure(...)` returns a decorator holding exactly the given settings, with `'_'` as the default delimiter |
| Decorate.Decorator.Apply | conjure/decorate.py:152-162 | `deco(f)` builds a `Conjure` around `f` with the decorator's settings |
| Decorate.JsonConjure | conjure/decorate.py:167-176 | content type `'application/json'`, delimiter `'_'`, and the given store, identifiers, serializer and deserializer |
| PyText.Strip | conjure/article.py:331 | `strip()` gives the empty string exactly when the text is all whitespace |
| PyText.StripIsSlice | conjure/article.py:331 | what `strip()` keeps is a slice of the text with only whitespace before and after it |
| PyText.StripEnds | conjure/article.py:331 | what `strip()` keeps neither starts nor ends with whitespace |
| PyText.JoinAppend | conjure/article.py:220 | joining two non-empty lists puts exactly one separator between the halves |
| Article.Html | conjure/article.py:212-220 | `html()` of any component: an image, a citation and an audio view give their own tag (lines 116-119, 142-151 and 185-193); a composite of no parts is empty, of one part is that part's html, and otherwise begins with its first part's html |
| Article.ImageHtml | conjure/article.py:116-119 | the image tag opens with `<img src="` and the raw `src`, and ends with `</img>` |
| Article.CitationHtml | conjure/article.py:142-151 | the citation block opens with `<citation-block` and the raw `tag` as its first attribute, and ends with `</citation-block>` |
| Article.AudioHtml | conjure/article.py:185-193 | the audio view opens with `<audio-view` and the raw `src` as its first attribute, and ends with `></audio-view>` |
| Article.PartHtml | conjure/article.py:212-217 | a text part of a composite renders through markdown, a component through its `html()` |
| Article.Markdown | conjure/article.py:121-122 | every component's `markdown()` raises `NotImplementedError` (the other three are at lines 153-154, 195-196 and 222-223) |
| Article.Render | conjure/article.py:108-114 | for each of the four components (the others at lines 134-140, 177-183 and 204-210), `render` succeeds exactly for `'html'`, returning `html()`; `'markdown'` raises `NotImplementedError`; any other target raises `ValueError` |
| Article.AudioControls | conjure/article.py:185-193 | the audio html with controls is the html without them, with the word `controls` inserted and nothing else changed |
| Article.CompositeAppend | conjure/article.py:212-220 | a composite's html is the newline-join of its parts, so two composites put together render as theirs joined by one newline |
| Article.ClassifyChunks | conjure/article.py:248-265 | the loop yields the items of the segmentation `Segments` |
| Article.OneMarkdownPerChunk | conjure/article.py:256-263 | exactly one markdown item per chunk, in chunk order, with the chunk's markup |
| Article.LastItemIsRest | conjure/article.py:265 | the last item is always code: the file's lines from where the last chunk ends |
| Article.CodeBeforeChunk | conjure/article.py:258-262 | a code item `lines[current:start-1]` precedes a chunk's markup exactly when the chunk starts past the current line |
| Article.Piece | conjure/article.py:331-336 | an item adds nothing exactly when it is code whose text is all whitespace; markdown always adds its stripped text between two newlines |
| Article.AssembleContent | conjure/article.py:326-336 | the content is the items' pieces concatenated in item order |
| Article.AssembleSplit | conjure/article.py:326-336 | every item's piece sits in the content between those of the items before and after it |
| Article.BlankCodeAddsNothing | conjure/article.py:333-334 | dropping the blank code items leaves the content unchanged |
| Article.Entry | conjure/article.py:306-311 | an entry starts with `level - 1` tabs, then ` - `, and ends with a newline |
| Article.Kept | conjure/article.py:306-309 | a heading gets an entry exactly when its indent is at most `max_depth` |
| Article.KeptGrowsWithDepth | conjure/article.py:308-309 | a larger `max_depth` never gives fewer entries |
| Article.TableOfContents | conjure/article.py:295-314 | the markdown converter applied to the header followed by the entries of the kept headings, in order; `max_depth` defaults to 2 |
| Article.ConjureArticle | conjure/article.py:318-339 | the content of the classified chunks, and the table of contents of the given headings |

## Left out

- `S3Collection` and `get_account_id` are not modelled: they are network calls. The backup tier is always an `LmdbCollection` on its own environment. `LocalCollectionWithBackup.constructor` requires that the backup does not share the local tier's files, and the `remote_bucket`, `is_public` and `cors_enabled` arguments are not modelled.
- `timestamp_id()` is not part of this model. Each write takes its fresh timestamp as a parameter: one for a plain `put` or a backfill, two (`Stamps`) for a two-tier `put`.
- LMDB environment settings, transactions, concurrency and `destroy` are left out. A `put` is modelled as one atomic step.
- `Storage.LmdbCollection.Put`: LMDB's key-size limits are not modelled. LMDB rejects an empty key and a key over 511 bytes, and py-lmdb raises `BadValsizeError` for them. So a `put` of `b''`, or one whose data key or feed key `base_timestamp` is over 511 bytes, raises and aborts its transaction, while the model commits it. Likewise `Get`, `Contains` and `Delete` of `b''` raise where the model answers `KeyError`, `False` or nothing. "Fails exactly when the feed key cannot be built" holds only for keys of 1 to 511 bytes.
- `Storage.LmdbCollection.Put`, `Storage.LmdbCollection.Get` and every other collection method take keys and values as bytes. `ensure_bytes` is modelled on its own (`Utf8.EnsureBytes`).
- `Storage.LmdbCollection.PublicUri` returns the URL text, not `urlparse`'s result.
- `Decorate.Conjure.Call` models the deserializer as a total function. A `KeyError` raised inside `from_bytes`, which the code would also treat as a miss, is not modelled.
- The content identifier, the parameter hash, and the JSON serializer and deserializer (`conjure/identifier.py`, `conjure/serialize.py`) are opaque functions.
- `Decorate.Conjure.Call`: `key(*args, **kwargs)` is modelled with one argument value of a generic type; keyword arguments are folded into it.
- `Conjure.serve` is not modelled.
- `Decorate.JsonConjure`: the `tag_deserialized` flag of `JSONDeserializer` is not modelled, because the deserializer is an opaque function.
- `Storage.LmdbCollection.Feed` returns the whole list at once. The Python generator raises `NotImplementedError` and runs the scan only at the first `next()`, and reads each entry in its own transaction. That laziness is not modelled.
- `Storage.LmdbCollection.IterPrefix` returns every key the cursor yields at once, not lazily.
- `Feeds.FeedInWriteOrder` takes the increasing, UTF-8 timestamps as a hypothesis. That `timestamp_id()` produces such timestamps is not part of this model.
- `Utf8.EnsureBytes`: a Python `str` may hold a lone surrogate, on which `encode` raises `UnicodeEncodeError`. A Dafny `char` cannot hold one, so that error is not modelled.
- `chunk_article` (the Python tokenizer), `markdown.markdown`, both regular expressions of `generate_table_of_contents`, `build_template` and the file written by `conjure_article` are left out.
  - `Article.ConjureArticle` takes the file's lines, the chunks and the headings the header pattern would find as inputs, and the markdown converter as a function.
  - Its content is the content before anchor links are added to the headings.
- Line numbers and chunk bounds are natural numbers, since the tokenizer numbers lines from 1.

## Findings

| source | as written | input that shows it | evidently intended | confidence | as-written member | corrected member |
|---|---|---|---|---|---|---|
| conjure/decorate.py:71 | on a miss `__call__` stores with `self.storage[key] = raw`, but no collection defines `__setitem__`, so Python raises `TypeError` after the function has run and nothing is stored | any call whose key is not yet stored, on an `LmdbCollection` or a `LocalCollectionWithBackup` | store with `self.storage.put(key, raw, self.content_type)`, so the next call with the same arguments is a hit | not executed | Decorate.Conjure.CallAsWritten, Decorate.Conjure.AsWrittenRecomputes | Decorate.Conjure.Call, Decorate.Conjure.ComputesAtMostOnce, Decorate.Conjure.SecondCallHits |
