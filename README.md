# okie core, modelled in Dafny

okie is a small asyncio HTTP/1.1 client. This project models its sequential
core and proves properties of the model:

- the case-insensitive `Headers` mapping and `header_key` (`okie/types.py`);
- `encode_headers`, which serialises a header mapping;
- the request-body builders in both generations:
  - the current `okie/_builders`: base part, url-encoded form, `multipart/form-data`, binary multipart;
  - the older `okie/builders`;
- the two request assemblers: `HTTPRequestFull` and `SupervisorBuilder`;
- the `HTProtocol` callbacks that fill a `Response`, and `Response.__len__`;
- the bookkeeping of the stream pool in `ConnectionController`.

## How the model is built

Bytes and Python `str` are both `string`, and `.encode()`/`.decode()` are the identity. Only `quote_plus` turns characters into UTF-8 bytes (`UrlEncoding.Utf8`).

**Dicts.** A Python dict is an ordered association list (`AssocList`):
- assigning an existing key overwrites it in place;
- assigning a new key appends it;
- `del` closes the gap.

This keeps the iteration order that `encode_headers` and `urlencode` depend on.

**Headers.**
- `header_key(k)` is ASCII lower-casing (`HeaderTypes.HeaderKey`). `.lower()` returns a plain `str`, so the overridden `__eq__` and `__contains__` of `header_key` are never reached, and the map compares keys with ordinary equality.
- `Headers(pairs)` is the fold `FromPairs`.
- `get_merged(o)` is `{**o, **self}`. For a `Headers` argument, whose keys are already lower-cased, this is `FromPairs(o + self)` (`HeaderTypes.Merged`). A plain dict with keys that differ only in case would merge differently and is not modelled.

**Builders.** Objects whose fields the source reassigns are classes. Each builder class carries the members it inherits, because the model has no inheritance. An assembler receives a sub-builder as a `PartView`: its body, its content type and its content length.

**Randomness.** `uuid.uuid4().int` is an input of type `Uuid`, a natural number below 2^128.

**Stream pool.**
- `make_connection` is split into `Acquire` (up to the `yield`) and `Release` (its `finally` block).
- The semaphore, whose default is one permit, is a counter.
- A waiting acquirer is the result `Blocked`.
- `asyncio.open_connection` returns a fresh `Handle`, numbered by a counter. Whether it succeeds is the input `connects`; a failure is the result `ConnectFailed`.

### What the source does that one might not expect

These layouts are modelled exactly as the code builds them.

- **Form fields.** Both generations of `make_form_field` fill their `%` template in an order that does not match its slots.
  - Newer generation (`okie/_builders/form_data.py:28-39`): the encoded part headers plus a CRLF land inside `name="…"`. The closing quote stands alone on the next line, followed by the field name and then the value, each on its own line.
  - Older generation (`okie/builders/form_data.py:21-32`): the encoded headers land inside `name="…"` with no CRLF, so the quote closes on the same line. Then come the name, an empty line and the value.
  - `LegacyFormData.DiffersFromNewerLayout` states both layouts side by side. They have the same length.
  - Neither puts the field name in the `name` parameter as section 4.2 of RFC 7578 describes. The model keeps the bytes the code produces.
- **Binary parts.** `make_binary_field` with no part headers writes three CRLFs after the `content-type` line (`Multipart.BinaryFieldWithoutHeaders`). A reader of the part therefore sees an empty header line followed by a payload that starts with CRLF.
- **Older `MultipartBuilder.add_binary_data`.** It appends to `self.data`, which no class in its chain defines. The call always raises AttributeError before anything is built.
- **`Response.__len__`.** `_cnt_len` is a class attribute outside `__slots__` and stays -1, so the length always comes from the `content-length` header.
- **Pool with one permit.** At most one stream is ever pooled. `Acquire` adds the popped slot to the busy set before a fresh stream replaces it, and `Release` discards the fresh stream. So a `None` slot stays in the busy set after a freshly opened stream is released.
- **Failed connection.** `open_connection` runs after the permit is taken and before the `try`. When it raises, the permit is never released and `None` stays in the busy set. With the single default permit every later `make_connection` then waits for ever (`Connections.FailedConnectKeepsPermit`).
- **`close_all` always raises.** It hands `asyncio.wait` a generator of `close_stream` coroutines, and `wait` refuses that on every Python version. The error propagates after `_closed` is set, so the reset of the deque and busy set is never reached and no stream is closed. Which exception it is depends on the Python version, which the model takes as the input `Asyncio`:
  - Up to Python 3.11 a generator counts as a coroutine, and `wait` raises TypeError on the generator itself.
  - From Python 3.12 on `wait` first collects the generator into a set. A non-empty set holds coroutines, which `wait` refuses with a TypeError. An empty set, as when only a freshly opened stream is lent out and busy holds just `None`, fails the assertion in the internal `_wait`.

  `Connections.ConnectionController.CloseAll` models this as written. `Connections.ConnectionController.CloseAllIntended` models the reset that the last two lines of `close_all` mean to perform; see "## Findings".
- **`okie/_builders/utils.py`.** This file, imported by the newer builders, is not part of this model. Its `encode_headers` is taken to be the one in `okie/builders/utils.py`.

## Model

| member | source | states |
|---|---|---|
| AssocList.Lookup | okie/types.py:77-82 | `d[k]` on an ordered dict, without the exception: the value at the first entry with key k, else None; tied to `Find` and characterised by `PutLookup` and `RemoveLookup` |
| AssocList.Put | okie/types.py:70-75 | `d[k] = v` on an ordered dict: overwrite in place when present, append otherwise; shape in `PutShape`, reads in `PutLookup`, distinctness in `PutDistinct` |
| AssocList.Remove | okie/types.py:84-89 | `del d[k]`: drop the entry with key k, keep the rest in order; stated by `RemoveLookup` |
| AssocList.Find | okie/types.py:77-82 | the first index whose key is k, and None exactly when no entry has key k |
| AssocList.KeysOf | okie/types.py:91-96 | the keys in iteration order, one per entry |
| AssocList.FindDistinct | okie/types.py:77-82 | with distinct keys, looking up an entry's own key finds that entry and its value |
| AssocList.PutLookup | okie/types.py:70-75 | after `d[k] = v`, `d[k]` is v and every other key reads as before |
| AssocList.PutShape | okie/types.py:70-75 | overwriting keeps the length and the key's position; a new key is appended at the end; other entries are unchanged |
| AssocList.PutDistinct | okie/types.py:64-75 | assignment keeps the keys distinct |
| AssocList.RemoveLookup | okie/types.py:84-89 | `del d[k]` removes exactly that entry: one fewer entry, k absent, others unchanged and in order |
| HeaderTypes.HeaderKey | okie/types.py:19-20 | the key has the name's length and no upper-case letter |
| HeaderTypes.HeaderKeyIdempotent | okie/types.py:19-20 | normalising twice equals normalising once |
| HeaderTypes.HeaderKeyOfLower | okie/types.py:19-20 | a lower-case name is its own key |
| HeaderTypes.HeaderKeyCaseInsensitive | okie/types.py:4-20 | two names have the same key if and only if they differ only in letter case |
| HeaderTypes.SetThenGet | okie/types.py:45-52 | after `h[k] = v`, `h[k']` is v for every case variant k' of k, and other names read as before |
| HeaderTypes.PutNormalised | okie/types.py:70-75 | assigning a lower-cased key keeps keys lower-case and distinct |
| HeaderTypes.InsertAll | okie/types.py:64-68 | the constructor's loop `_data[header_key(key)] = value`, pair by pair from an accumulator; stated by `InsertAllNormalised`, `InsertAllNormalisedLookup`, `InsertAllConcat` and `InsertAllKeepsPrefix` |
| HeaderTypes.FromPairs | okie/types.py:60-68 | `Headers(pairs)`: the loop from an empty `_data`; stated by `FromPairsNormalised`, `FromPairsLookup` and `FromPairsOfNormalised` |
| HeaderTypes.Merged | okie/types.py:105-116 | `Headers({**(other or {}), **self})` for `Headers` operands: the argument's pairs, then self's; stated by `MergedSpec` and `MergedWithEmpty` |
| HeaderTypes.InsertAllNormalised | okie/types.py:64-68 | the constructor's loop keeps keys lower-case and distinct |
| HeaderTypes.FromPairsNormalised | okie/types.py:60-68 | a mapping built from any pairs has lower-case, distinct keys |
| HeaderTypes.FromPairsLookup | okie/types.py:64-68 | a built mapping holds, for each key, the value of the last pair whose name normalises to it |
| HeaderTypes.LastWithKey | okie/types.py:64-68 | the index of the last pair whose name normalises to k |
| HeaderTypes.InsertAllConcat | okie/types.py:64-68 | inserting a + b equals inserting a, then b |
| HeaderTypes.FromPairsOfNormalised | okie/types.py:60-68 | rebuilding from an already normalised mapping gives it back unchanged |
| HeaderTypes.InsertAllNormalisedLookup | okie/types.py:116 | after inserting a normalised mapping, its keys read its values and other keys read as before |
| HeaderTypes.InsertAllKeepsPrefix | okie/types.py:116 | inserting never moves the keys already present |
| HeaderTypes.MergedSpec | okie/types.py:105-116 | the merge is normalised, has the union of keys, takes self's value where self has the key and the argument's otherwise, and lists the argument's keys first |
| HeaderTypes.MergedWithEmpty | okie/types.py:105-116 | merging with nothing gives a copy equal to self |
| HeaderTypes.Headers.constructor | okie/types.py:60-68 | the new mapping is the normalised fold of the pairs |
| HeaderTypes.Headers.Set | okie/types.py:70-75 | the entries become the assignment under the lower-cased key; the invariant is kept |
| HeaderTypes.Headers.Get | okie/types.py:77-82 | succeeds exactly when some stored key equals the name ignoring case, with the stored value; otherwise KeyError of the lower-cased name |
| HeaderTypes.Headers.Delete | okie/types.py:84-89 | removes the entry when the lower-cased key is present; otherwise KeyError and nothing changes |
| HeaderTypes.Headers.Keys | okie/types.py:91-96 | iteration yields the stored keys in order, all lower-case and distinct |
| HeaderTypes.Headers.Len | okie/types.py:98-103 | `len(h)` is the number of iterated keys |
| HeaderTypes.Headers.GetMerged | okie/types.py:105-116 | a fresh, valid mapping holding `{**other, **self}`; a missing argument is treated as empty, and neither operand changes |
| HeaderTypes.DocumentedExample | okie/types.py:45-53 | the docstring's session: mixed-case and lower-case reads agree, and a read after a `del` in another case raises KeyError |
| HeaderEncoding.HeaderLine | okie/builders/utils.py:6 | one `k: v` line |
| HeaderEncoding.EncodeHeaders | okie/builders/utils.py:4-8 | `b"\r\n".join` of the `k: v` lines in iteration order; stated by `EncodeEmpty`, `EncodeSingle`, `EncodeAppend`, `EncodeLength` and `EncodeStartsWithFirst` |
| HeaderEncoding.EncodeEmpty | okie/builders/utils.py:4-8 | an empty mapping encodes to empty bytes |
| HeaderEncoding.EncodeSingle | okie/builders/utils.py:4-8 | one entry encodes to exactly `k: v` |
| HeaderEncoding.EncodeAppend | okie/builders/utils.py:4-8 | adding an entry at the end appends CRLF and its line: lines in iteration order, joined by CRLF |
| HeaderEncoding.EncodeLength | okie/builders/utils.py:4-8 | the length is the sum of the line lengths plus two for each of the n-1 separators |
| HeaderEncoding.EncodeStartsWithFirst | okie/builders/utils.py:4-8 | with two or more entries the output starts with the first line and CRLF, with no leading CRLF |
| Octets.Decimal | okie/_builders/_full.py:48 | the `str(n)` rendering: non-empty decimal digits, with a leading zero only for 0 |
| Octets.ParseDecimal | okie/response.py:28 | `int(s)` on digit strings: succeeds exactly for non-empty all-digit input, else ValueError |
| Octets.DecimalRoundTrip | okie/response.py:28 | parsing the rendering of n gives n back |
| Octets.DecimalInjective | okie/_builders/_full.py:48 | different numbers render differently |
| Octets.Hex | okie/_builders/form_data.py:18 | a non-empty string of lower-case hex digits with no leading zero unless n is 0; `HexRoundTrip` gives its value |
| Octets.HexRoundTrip | okie/_builders/form_data.py:18 | the hexadecimal rendering reads back as the number |
| Octets.Hex32Shape | okie/_builders/form_data.py:18 | `%032x` of a 128-bit number: exactly 32 lower-case hex digits that read back as the number |
| Octets.PadHexShape | okie/_builders/form_data.py:18 | `%0*x` of a number below 16^width: exactly width lower-case hex digits that read back as the number |
| UrlEncoding.Utf8 | okie/_builders/form_urlencoded.py:45 | a character's UTF-8 encoding: one to four bytes, and one byte equal to the code for ASCII |
| UrlEncoding.PercentBytes | okie/_builders/form_urlencoded.py:45 | `%XX` escapes: three characters per byte, only `%` and upper-case hex digits |
| UrlEncoding.QuotePlus | okie/_builders/form_urlencoded.py:45 | `quote_plus` output never contains `&` or `=` |
| UrlEncoding.QuotePlusAlphabet | okie/_builders/form_urlencoded.py:45 | quoted ASCII text contains only unreserved characters, `+`, `%` and upper-case hex digits |
| UrlEncoding.QuotePlusRoundTrip | okie/_builders/form_urlencoded.py:45 | unquoting the quoted ASCII text gives it back |
| UrlEncoding.QuotePlusConcat | okie/_builders/form_urlencoded.py:45 | quoting works character by character: the quoting of a concatenation is the concatenation of the quotings |
| UrlEncoding.PairRoundTrip | okie/_builders/form_urlencoded.py:45 | a `k=v` pair parses back into its key and value |
| UrlEncoding.EncodeExample | okie/_builders/form_urlencoded.py:45 | kept characters, `+` for space, `%26` for `&`, pairs joined by `&` |
| UrlEncoding.UrlEncodeRoundTrip | okie/_builders/form_urlencoded.py:45 | parsing the encoded ASCII fields gives the same fields in the same order |
| UrlEncoding.PairHasNoAmpersand | okie/_builders/form_urlencoded.py:45 | an encoded `key=value` pair is never empty and never contains `&` |
| UrlEncoding.ParseJoined | okie/_builders/form_urlencoded.py:45 | a body made of a pair without `&`, a `&` and a non-empty rest decodes to that pair followed by the decoding of the rest |
| UrlEncoding.UrlEncodeInjective | okie/_builders/form_urlencoded.py:45 | different ASCII field lists never encode alike |
| UrlEncoding.NonEmptyEncoding | okie/_builders/form_urlencoded.py:45 | only the empty field list encodes to empty text |
| UrlEncoding.QuoteChar | okie/_builders/form_urlencoded.py:45 | `quote_plus` of one character: itself when unreserved, `+` for a space, else `%XX` of its UTF-8 bytes; alphabet in `QuoteCharAlphabet`, inverse in `UnquoteQuoteChar` |
| UrlEncoding.EncodePair | okie/_builders/form_urlencoded.py:45 | one `quote_plus(k)=quote_plus(v)` item; inverse in `PairRoundTrip`, no `&` by `PairHasNoAmpersand` |
| UrlEncoding.UrlEncode | okie/_builders/form_urlencoded.py:45 | `urlencode(intermediate)`: the items joined by `&` in dict order; inverse in `UrlEncodeRoundTrip`, injective by `UrlEncodeInjective` |
| UrlEncoding.IndexOf | okie/_builders/form_urlencoded.py:45 | the position of the first occurrence, or None when there is none |
| PartBase.OkieRequestPart.Body | okie/_builders/base.py:26-32 | the `body` property, `_body or b""`, through `BodyOf` |
| PartBase.OkieRequestPart.ContentType | okie/_builders/base.py:10-16 | the base content type `*/*` |
| PartBase.BodyOf | okie/_builders/base.py:26-32 | `_body or b""`: an unset body reads as empty |
| PartBase.OkieRequestPart.constructor | okie/_builders/base.py:7 | a new part has no body yet and reads as empty |
| PartBase.OkieRequestPart.ContentLength | okie/_builders/base.py:18-24 | content length is the body's length in every state |
| PartBase.OkieRequestPart.View | okie/_builders/base.py:10-32 | what an assembler sees: the body, `*/*` and a consistent length |
| PartBase.OkieRequestPart.Build | okie/_builders/base.py:34-38 | the base build changes nothing |
| PartBase.OkieRequestPart.Clean | okie/_builders/base.py:40-44 | clean sets the body to empty bytes |
| PartBase.OkieRequestPart.Enter | okie/_builders/base.py:46-47 | entering the `with` scope returns the same object |
| PartBase.OkieRequestPart.Exit | okie/_builders/base.py:49-50 | leaving the scope is a build |
| FormUrlEncoded.FormURLEncodedBuilder.constructor | okie/_builders/form_urlencoded.py:16-17 | no fields and an unset, empty body |
| FormUrlEncoded.FormURLEncodedBuilder.ContentType | okie/_builders/form_urlencoded.py:19-25 | always `application/x-www-form-urlencoded` |
| FormUrlEncoded.FormURLEncodedBuilder.ContentLength | okie/_builders/base.py:18-24 | the length of the current body |
| FormUrlEncoded.FormURLEncodedBuilder.View | okie/_builders/base.py:10-32 | the body, the form content type and a consistent length |
| FormUrlEncoded.FormURLEncodedBuilder.AddField | okie/_builders/form_urlencoded.py:27-38 | the fields become the dict assignment; the body is untouched and field names stay distinct |
| FormUrlEncoded.FormURLEncodedBuilder.Build | okie/_builders/form_urlencoded.py:40-45 | the body becomes old body + encoded fields, the length grows by that much, and the fields stay |
| FormUrlEncoded.FormURLEncodedBuilder.Clean | okie/_builders/form_urlencoded.py:47-53 | body empty and no fields |
| FormUrlEncoded.FormURLEncodedBuilder.Enter | okie/_builders/base.py:46-47 | returns the builder itself |
| FormUrlEncoded.FormURLEncodedBuilder.Exit | okie/_builders/base.py:49-50 | leaving the scope appends the encoded fields once |
| FormUrlEncoded.FormURLEncodedBuilder.WithBlock | okie/_builders/base.py:46-50 | a `with` block whose body adds fields and may raise part-way: the fields added before the raise are kept, build runs exactly once on either exit, and the error is passed on |
| FormUrlEncoded.CleanThenReuse | samples/form_urlencoded.py:22-27 | add, build, clean, add, build gives exactly `b=2` |
| FormUrlEncoded.BuildTwice | okie/_builders/form_urlencoded.py:40-45 | two builds give two copies with no `&` between them |
| FormUrlEncoded.FormURLEncodedBuilder.Body | okie/_builders/base.py:26-32 | the inherited `body` property, `_body or b""` |
| FormUrlEncoded.PutAll | okie/_builders/form_urlencoded.py:27-38 | a run of `add_field` calls as successive dict assignments; used by `WithBlock` to state the fields kept |
| FormUrlEncoded.BuildWithoutFields | okie/_builders/form_urlencoded.py:40-45 | without fields a build leaves the body empty |
| FormData.MakeBoundary | okie/_builders/form_data.py:10-18 | 32 lower-case hex digits that read back as the uuid's integer |
| FormData.BoundaryInjective | okie/_builders/form_data.py:10-18 | different uuids give different boundaries |
| FormData.FormFieldLayout | okie/_builders/form_data.py:21-40 | the chunk's length and where each part sits: prefix, encoded headers + CRLF + quote line, name, value + CRLF |
| FormData.FormFieldWithoutHeaders | okie/_builders/form_data.py:21-40 | with no part headers the name slot holds just a CRLF |
| FormData.Concat | okie/_builders/form_data.py:85-88 | `b"".join(chunks)`: its length is the sum of the chunk lengths |
| FormData.ConcatAppend | okie/_builders/form_data.py:85-88 | joining one more chunk appends it |
| FormData.MakeFormField | okie/_builders/form_data.py:21-40 | the chunk as the code fills its template; layout in `FormFieldLayout`, `FormFieldWithoutHeaders` and `KeyValueExample` |
| FormData.Terminator | okie/_builders/form_data.py:88 | the closing delimiter `--B--` and two CRLFs; length in `TerminatorLength` |
| FormData.FormDataBuilder.Body | okie/_builders/base.py:26-32 | the inherited `body` property, `_body or b""` |
| FormData.TerminatorLength | okie/_builders/form_data.py:88 | the closing delimiter of a 32-digit boundary is 40 bytes |
| FormData.FormContentType | okie/_builders/form_data.py:53-58 | `multipart/form-data; boundary=` followed by the boundary |
| FormData.FormDataBuilder.constructor | okie/_builders/form_data.py:49-51 | a fresh 32-digit boundary, no chunks, empty body |
| FormData.FormDataBuilder.ContentType | okie/_builders/form_data.py:53-58 | the form-data content type with this builder's boundary |
| FormData.FormDataBuilder.ContentLength | okie/_builders/base.py:18-24 | the length of the current body |
| FormData.FormDataBuilder.View | okie/_builders/base.py:10-32 | the body, the form-data content type and a consistent length |
| FormData.FormDataBuilder.AddFormData | okie/_builders/form_data.py:60-83 | appends exactly one chunk; earlier chunks and the body stay |
| FormData.FormDataBuilder.Build | okie/_builders/form_data.py:85-88 | the body is replaced by the joined chunks and the closing delimiter |
| FormData.FormDataBuilder.Clean | okie/_builders/form_data.py:90-92 | body and chunks emptied, boundary kept |
| FormData.FormDataBuilder.Enter | okie/_builders/base.py:46-47 | returns the builder itself |
| FormData.FormDataBuilder.Exit | okie/_builders/base.py:49-50 | leaving the scope is a build |
| FormData.BuildWithoutFields | okie/_builders/form_data.py:85-88 | without fields the body is only the 40-byte closing delimiter |
| FormData.KeyValueExample | okie/_builders/form_data.py:21-40 | the exact body and content type for one field without part headers, in the swapped layout |
| FormData.BuildIsIdempotent | okie/_builders/form_data.py:85-88 | on any builder, building twice in a row gives the same body as building once: the joined chunks and the closing delimiter, with the chunks kept |
| Multipart.BinaryPartHead | okie/_builders/multipart.py:16-33 | everything of a binary chunk before its payload |
| Multipart.MakeBinaryField | okie/_builders/multipart.py:7-36 | `make_binary_field`: the part head, the payload and CRLF; layout in `BinaryPayloadVerbatim`, `BinaryFieldLength`, `BinaryDispositionSlot` and `BinaryFieldWithoutHeaders` |
| Multipart.MultipartBuilder.Body | okie/_builders/base.py:26-32 | the inherited `body` property, `_body or b""` |
| Multipart.FileNameOf | okie/_builders/multipart.py:31 | `filename or field_name` |
| Multipart.BinaryPayloadVerbatim | okie/_builders/multipart.py:16-35 | the payload stands verbatim just before the final CRLF |
| Multipart.BinaryFieldLength | okie/_builders/multipart.py:16-35 | 80 fixed bytes plus the lengths of boundary, field name, file name, content type, encoded headers and payload |
| Multipart.BinaryDispositionSlot | okie/_builders/multipart.py:17-31 | after `name="` come the field name, `"; filename="`, the file name and the closing quote |
| Multipart.BinaryFieldWithoutHeaders | okie/_builders/multipart.py:7-36 | with no part headers the head ends in three CRLFs |
| Multipart.MultipartBuilder.constructor | okie/_builders/form_data.py:49-51 | a fresh 32-digit boundary, no chunks, empty body |
| Multipart.MultipartBuilder.ContentType | okie/_builders/form_data.py:53-58 | the form-data content type with this builder's boundary |
| Multipart.MultipartBuilder.ContentLength | okie/_builders/base.py:18-24 | the length of the current body |
| Multipart.MultipartBuilder.View | okie/_builders/base.py:10-32 | the body, the form-data content type and a consistent length |
| Multipart.MultipartBuilder.AddFormData | okie/_builders/form_data.py:60-83 | appends exactly one text chunk |
| Multipart.MultipartBuilder.AddBinaryData | okie/_builders/multipart.py:47-75 | appends exactly one binary chunk stamped with this builder's boundary; the body waits |
| Multipart.MultipartBuilder.Build | okie/_builders/form_data.py:85-88 | joined chunks and the closing delimiter |
| Multipart.MultipartBuilder.Clean | okie/_builders/form_data.py:90-92 | body and chunks emptied, boundary kept |
| Multipart.MultipartBuilder.Enter | okie/_builders/base.py:46-47 | returns the builder itself |
| Multipart.MultipartBuilder.Exit | okie/_builders/base.py:49-50 | leaving the scope is a build |
| Multipart.MixedFieldsInCallOrder | okie/_builders/multipart.py:39-75 | a text field, then a file: the body holds both chunks in call order, then the closing delimiter |
| FullRequest.HttpRequestFull.Begin | okie/_builders/_full.py:30-32 | the start line without its CRLF; placed by `FullFrames` |
| FullRequest.HttpRequestFull.BaseHeaders | okie/_builders/_full.py:36-39 | `host` then `user-agent`; value in `BaseHeadersValue` |
| FullRequest.HttpRequestFull.MergedHeaders | okie/_builders/_full.py:36-41 | the base headers merged with the request headers, None as empty; stated by `MergedHeadersSpec` and `MergedWithoutExtraHeaders` |
| FullRequest.HttpRequestFull.HasBody | okie/_builders/_full.py:45 | a sub-builder is present and its body is not empty |
| FullRequest.HttpRequestFull.Headers | okie/_builders/_full.py:34-53 | the header block; stated by `HeadersBlock` and `HeadersWithoutBody` |
| FullRequest.HttpRequestFull.Body | okie/_builders/_full.py:55-59 | the sub-builder's body when it has one, else empty |
| FullRequest.HttpRequestFull.Full | okie/_builders/_full.py:61-67 | `b"\r\n".join((begin, headers, body)) + b"\r\n"`; framing in `Framing` and `FullFrames`, exact bytes in `RequestWithoutBody` |
| FullRequest.BaseHeadersValue | okie/_builders/_full.py:36-39 | the base mapping is `host`, then `user-agent: okie/0.x` |
| FullRequest.MergedHeadersSpec | okie/_builders/_full.py:35-41 | host and user-agent keep their base values whatever the request headers say; other keys come from the request headers, which come first |
| FullRequest.MergedWithoutExtraHeaders | okie/_builders/_full.py:41 | without request headers the merge is just host and user-agent |
| FullRequest.HeadersBlock | okie/_builders/_full.py:35-53 | the merged lines plus CRLF, then content-length (the decimal body length) and content-type lines exactly when there is a non-empty body; always ends in CRLF |
| FullRequest.BodyHeaderLines | okie/_builders/_full.py:46-51 | the two body header lines are written as `content-length` then `content-type`, with the values unchanged |
| FullRequest.HeadersWithoutBody | okie/_builders/_full.py:35-53 | without body or request headers, exactly the host, user-agent and closing CRLF lines |
| FullRequest.EmptyBodyLikeNoBuilder | okie/_builders/_full.py:44-59 | a builder with an empty body gives the same request as no builder |
| FullRequest.Framing | okie/_builders/_full.py:61-67 | start line, headers and body each stand at their place, separated by CRLF, with a CRLF at the end |
| FullRequest.FullFrames | okie/_builders/_full.py:61-67 | the full request is start line CRLF headers CRLF body CRLF, and the body stands verbatim |
| FullRequest.RequestWithoutBody | okie/_builders/_full.py:30-67 | a request without body or extra headers is exactly the start line, host, user-agent and three CRLFs |
| Supervisor.RequestHead | okie/builders/fline.py:17 | the start line and the `host` line |
| Supervisor.SupervisorBody | okie/builders/fline.py:16-34 | the bytes the constructor computes; stated by `WithoutBody`, `WithBody` and `HeadAndEnd` |
| Supervisor.WithoutBody | okie/builders/fline.py:17-34 | no builder, or an empty body: the head and one CRLF, the same as without a builder |
| Supervisor.WithBody | okie/builders/fline.py:21-34 | a non-empty body: head, content-length whose digits parse to the body length, content-type, empty line, the body verbatim, two CRLFs |
| Supervisor.HeadAndEnd | okie/builders/fline.py:17-34 | every request starts with the start line and the host line, and ends in CRLF |
| LegacyBase.OkieRequestPart.constructor | okie/builders/base.py:7 | the body starts empty |
| LegacyBase.OkieRequestPart.ContentLength | okie/builders/base.py:14-16 | the body's length |
| LegacyBase.OkieRequestPart.View | okie/builders/base.py:10-16 | the body, `*/*` and a consistent length |
| LegacyBase.OkieRequestPart.Build | okie/builders/base.py:18-19 | changes nothing |
| LegacyBase.OkieRequestPart.Clean | okie/builders/base.py:21-22 | body empty |
| LegacyBase.OkieRequestPart.Enter | okie/builders/base.py:24-25 | returns the same object |
| LegacyBase.OkieRequestPart.Exit | okie/builders/base.py:27-28 | leaving the scope is a build |
| LegacyFormUrlEncoded.FormURLEncodedBuilder.constructor | okie/builders/form_urlencoded.py:9-11 | empty body and no fields |
| LegacyFormUrlEncoded.FormURLEncodedBuilder.ContentType | okie/builders/form_urlencoded.py:13-15 | always `application/x-www-form-urlencoded` |
| LegacyFormUrlEncoded.FormURLEncodedBuilder.ContentLength | okie/builders/base.py:14-16 | the body's length |
| LegacyFormUrlEncoded.FormURLEncodedBuilder.View | okie/builders/base.py:10-16 | the body, the form content type and a consistent length |
| LegacyFormUrlEncoded.FormURLEncodedBuilder.AddField | okie/builders/form_urlencoded.py:17-20 | dict assignment: last value wins, first position kept |
| LegacyFormUrlEncoded.FormURLEncodedBuilder.Build | okie/builders/form_urlencoded.py:22-23 | `body +=` the encoded fields; the fields stay |
| LegacyFormUrlEncoded.FormURLEncodedBuilder.Clean | okie/builders/form_urlencoded.py:25-27 | body and fields emptied |
| LegacyFormUrlEncoded.FormURLEncodedBuilder.Enter | okie/builders/base.py:24-25 | returns the builder itself |
| LegacyFormUrlEncoded.FormURLEncodedBuilder.Exit | okie/builders/base.py:27-28 | leaving the scope appends the encoded fields once |
| LegacyFormUrlEncoded.OverwriteKeepsPosition | okie/builders/form_urlencoded.py:17-23 | `a`, `b`, `a` again encodes as `a=3&b=2` |
| LegacyBase.OkieRequestPart.ContentType | okie/builders/base.py:10-12 | the base content type `*/*` |
| LegacyFormData.MakeFormField | okie/builders/form_data.py:14-33 | the older chunk as the code fills its template; layout in `DiffersFromNewerLayout` |
| LegacyFormData.MakeBoundary | okie/builders/form_data.py:10-11 | the same 32 hex digits as the newer boundary |
| LegacyFormData.DiffersFromNewerLayout | okie/builders/form_data.py:14-33 | the older chunk's exact layout beside the newer one's, and that both have the same length |
| LegacyFormData.FormDataBuilder.constructor | okie/builders/form_data.py:37-40 | a 32-digit boundary, empty body, no chunks |
| LegacyFormData.FormDataBuilder.ContentType | okie/builders/form_data.py:42-44 | the form-data content type with this builder's boundary |
| LegacyFormData.FormDataBuilder.ContentLength | okie/builders/base.py:14-16 | the body's length |
| LegacyFormData.FormDataBuilder.View | okie/builders/base.py:10-16 | the body, the content type and a consistent length |
| LegacyFormData.FormDataBuilder.AddFormData | okie/builders/form_data.py:46-59 | appends exactly one chunk in the older layout |
| LegacyFormData.FormDataBuilder.Build | okie/builders/form_data.py:61-64 | the body is replaced by the joined chunks and the closing delimiter |
| LegacyFormData.FormDataBuilder.Clean | okie/builders/form_data.py:66-68 | body and chunks emptied, boundary kept |
| LegacyFormData.FormDataBuilder.Enter | okie/builders/base.py:24-25 | returns the builder itself |
| LegacyFormData.FormDataBuilder.Exit | okie/builders/base.py:27-28 | leaving the scope is a build |
| LegacyFormData.BuildIsIdempotent | okie/builders/form_data.py:61-64 | on any builder, building twice in a row gives the same body as building once: the joined chunks and the closing delimiter, with the chunks kept |
| LegacyFormData.OneFieldBody | okie/builders/form_data.py:46-64 | one field without part headers builds to exactly that chunk and the closing delimiter |
| LegacyMultipart.MakeBinaryField | okie/builders/multipart.py:7-36 | the older `make_binary_field`; equal to the newer one by `SameAsNewerBinaryField` |
| LegacyMultipart.SameAsNewerBinaryField | okie/builders/multipart.py:7-36 | the older binary chunk has exactly the newer one's bytes |
| LegacyMultipart.MultipartBuilder.constructor | okie/builders/form_data.py:37-40 | a 32-digit boundary, empty body, no chunks |
| LegacyMultipart.MultipartBuilder.ContentType | okie/builders/form_data.py:42-44 | the form-data content type with this builder's boundary |
| LegacyMultipart.MultipartBuilder.ContentLength | okie/builders/base.py:14-16 | the body's length |
| LegacyMultipart.MultipartBuilder.View | okie/builders/base.py:10-16 | the body, the content type and a consistent length |
| LegacyMultipart.MultipartBuilder.AddFormData | okie/builders/form_data.py:46-59 | appends exactly one chunk in the older layout |
| LegacyMultipart.MultipartBuilder.AddBinaryData | okie/builders/multipart.py:40-57 | always AttributeError on `data`, and nothing changes |
| LegacyMultipart.MultipartBuilder.Build | okie/builders/form_data.py:61-64 | joined chunks and the closing delimiter |
| LegacyMultipart.MultipartBuilder.Clean | okie/builders/form_data.py:66-68 | body and chunks emptied, boundary kept |
| LegacyMultipart.MultipartBuilder.Enter | okie/builders/base.py:24-25 | returns the builder itself |
| LegacyMultipart.MultipartBuilder.Exit | okie/builders/base.py:27-28 | leaving the scope is a build |
| LegacyMultipart.BinaryDataNeverLands | okie/builders/multipart.py:40-57 | after a text field, a binary add fails and leaves the one chunk and the empty body as they were |
| ResponseCollector.LenOf | okie/response.py:25-28 | TypeError without headers, KeyError without `content-length`, ValueError for non-digits, OverflowError above `sys.maxsize`, else the decimal value |
| ResponseCollector.LenOfDecimal | okie/response.py:25-28 | a `content-length` holding the rendering of n gives length n |
| ResponseCollector.Response.constructor | okie/response.py:19-23 | every slot starts as None |
| ResponseCollector.Response.Len | okie/response.py:17-28 | `len(r)` always comes from the header, since `_cnt_len` stays -1 |
| ResponseCollector.HTProtocol.constructor | okie/response.py:35-36 | a fresh, empty response |
| ResponseCollector.HTProtocol.OnUrl | okie/response.py:38-39 | sets the URL and nothing else |
| ResponseCollector.HTProtocol.OnHeader | okie/response.py:41-46 | the first header creates the dict, later ones insert or overwrite under the lower-cased name; every case variant of the name then reads the value and other names read as before |
| ResponseCollector.HTProtocol.OnBody | okie/response.py:48-49 | the body is replaced by the latest chunk, nothing else changes |
| ResponseCollector.HTProtocol.OnMessageComplete | okie/response.py:51-52 | `closed` becomes True; it is never False |
| ResponseCollector.HTProtocol.OnStatus | okie/response.py:54-55 | sets the status text and nothing else |
| ResponseCollector.HTProtocol.PutStatusCode | okie/response.py:57-58 | sets the status code and nothing else |
| ResponseCollector.SmallResponse | okie/response.py:25-58 | status 200, `Content-Length: 5`, body `hello`, complete: code 200, body `hello`, closed, length 5 |
| ResponseCollector.RepeatedHeader | okie/response.py:41-46 | a header repeated in another case keeps one entry with its last value |
| Connections.OrElse | okie/ctrl/connections.py:25 | Python `x or y` on an optional timeout: None and zero fall back |
| Connections.PortFor | okie/ctrl/connections.py:39-41 | the given port, else 443 with TLS and 80 without |
| Connections.HandshakeFor | okie/ctrl/connections.py:47-49 | a handshake timeout only with TLS, the per-call one before the controller default |
| Connections.ConnectionController.constructor | okie/ctrl/connections.py:20-25 | empty deque and busy set, one permit, not closed, handshake default 60 for None or zero |
| Connections.ConnectionController.Acquire | okie/ctrl/connections.py:35-50 | without a permit, waits and nothing changes; otherwise takes the permit, moves the deque head (or None) to busy, and, when the slot is None, opens a fresh stream with the defaulted port and timeout, or, when opening fails, reports the failure with the permit still taken and None left in busy |
| Connections.ConnectionController.Release | okie/ctrl/connections.py:54-57 | the stream goes to the deque's tail, leaves busy, and the permit returns |
| Connections.WaitError | okie/ctrl/connections.py:64-72 | the exception `asyncio.wait` raises on the generator: AssertionError exactly when the version is 3.12 or later and the generator yields nothing, TypeError exactly otherwise |
| Connections.ConnectionController.CloseAll | okie/ctrl/connections.py:59-75 | as written: later calls change nothing; the first call sets closed and always raises WaitError of the version and of whether a live stream is pooled or lent out, leaving deque, busy, permits and the stream count as they were |
| Connections.ConnectionController.CloseAllIntended | okie/ctrl/connections.py:59-75 | as intended: always returns normally; the first call sets closed, keeps the deque's length with only None slots and clears busy, so no live stream is left; later calls change nothing |
| Connections.ReleaseThenReuse | okie/ctrl/connections.py:35-57 | a released stream is the one the next acquisition gets |
| Connections.FreshLeavesNoneBusy | okie/ctrl/connections.py:35-57 | after a freshly opened stream is released, None stays in busy and the stream is pooled |
| Connections.SecondAcquireWaits | okie/ctrl/connections.py:23-35 | with the only permit out, a second acquisition waits |
| Connections.CloseAllThenAcquire | okie/ctrl/connections.py:35-75 | as written, with one released stream pooled, `close_all` raises TypeError on every version and the next acquisition hands out that same unclosed stream again |
| Connections.IntendedCloseAllThenAcquire | okie/ctrl/connections.py:35-75 | with the intended `close_all`, the next acquisition opens a new stream, numbered 1, with the default handshake timeout |
| Connections.FailedConnectKeepsPermit | okie/ctrl/connections.py:35-57 | a failed `open_connection` keeps the only permit and leaves None in busy, so the next acquisition waits |
| Connections.CloseAllWhileLentOut | okie/ctrl/connections.py:35-75 | with only a freshly opened stream lent out, `close_all` raises TypeError up to Python 3.11 and AssertionError from 3.12 on, sets closed and leaves busy as {None} |

## Left out

- Asyncio scheduling, sockets, TLS, `open_connection` and `close_stream`: the pool is modelled as bookkeeping only. `asyncio.wait` in `close_all` is modelled only by the exception it raises, chosen by the input `Asyncio`. A suspended acquirer is the result `Blocked`, and a failing `open_connection` is the input `connects`.
- `Connections.ConnectionController.CloseAll`: the exception is modelled by its kind only, without its message. The `close_stream` coroutines that Python 3.12 and later create and never await are not modelled, nor is the warning Python prints about them.
- `okie/client.py`, the httptools wire parser and URL parsing: these are I/O orchestration and a foreign library. The callbacks receive already parsed values.
- `uuid.uuid4()` randomness: the 128-bit integer is a parameter.
- Unicode behaviour of `str.lower()`, `.encode()` and `.decode()`: `HeaderKey` lower-cases ASCII letters only, and the round trips of url-encoding are proved for ASCII text.
- `ResponseCollector.LenOf` accepts only decimal digits. Python's `int()` also accepts surrounding whitespace, a sign, underscores and non-ASCII digits. `sys.maxsize` is taken as 2^63-1, as on a 64-bit build.
- `urllib.parse.urlencode` is modelled only as it is called here: `quote_plus` on string keys and values, with `doseq` off.
- The `ssl` argument's truthiness is a `bool`; the `SSLContext` itself is not modelled.
- `PartBase.OkieRequestPart.Exit` and the other `Exit` members do not model the exception that `__exit__` lets propagate. `FormUrlEncoded.FormURLEncodedBuilder.WithBlock` models the raise explicitly.
- `Connections.ConnectionController.Release` requires the permit to be taken, which is how the `finally` block is reached. An unpaired `release()` that lifts the asyncio semaphore above one is not modelled.
- `Supervisor.WithBody` states where the body stands; it does not state that the body occurs only once in the output.
- `HeaderTypes.Headers.GetMerged` and `HeaderTypes.Merged` are stated for a `Headers` argument, as the signature declares. A plain dict whose keys differ only in case would keep both keys through `{**o, **self}` before normalisation; that case is not modelled.
- `okie/enums`: a plain enumeration of method names. The assemblers take the method as a string.

## Findings

| source | as written | input that shows it | evidently intended | confidence | as-written member | corrected member |
|---|---|---|---|---|---|---|
| okie/ctrl/connections.py:64-75 | `close_all` passes a generator of coroutines to `asyncio.wait`, which refuses it on every Python version, so lines 74-75 never run and no stream is closed | a controller with one stream acquired and released, then `close_all`: TypeError, and the next acquisition gets the same unclosed stream | the live streams are closed, the deque holds only None slots and busy is empty | not executed | Connections.CloseAllThenAcquire | Connections.IntendedCloseAllThenAcquire |
