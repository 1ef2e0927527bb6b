/**
 * okie/_builders/form_data.py: the multipart/form-data builder. A 32-digit
 * hexadecimal boundary is fixed at construction; `add_form_data` appends one
 * pre-rendered chunk; `build` REPLACES the body with all chunks followed by the
 * closing delimiter; `clean` drops body and chunks but keeps the boundary.
 *
 * `make_form_field` fills its `%` template with its arguments in a different
 * order from the one its layout suggests: the encoded part headers land inside
 * `name="..."` and the field name on a line of its own. The model keeps the
 * bytes the code produces.
 */
module FormData {
  import opened Results
  import opened Octets
  import opened HeaderEncoding
  import opened PartBase

  /** `b"%032x" % uuid.uuid4().int`, with the random integer as input. */
  function MakeBoundary(uuid: Uuid): (b: string)
    ensures |b| == 32 && forall i :: 0 <= i < 32 ==> IsLowerHexDigit(b[i])
    ensures HexValue(b) == uuid
  {
    Pow16Uuid();
    Hex32Shape(uuid);
    Hex32(uuid)
  }

  /** Distinct random integers give distinct boundaries. */
  lemma BoundaryInjective(u: Uuid, w: Uuid)
    requires MakeBoundary(u) == MakeBoundary(w)
    ensures u == w
  {
  }

  const DISPOSITION: string := "content-disposition: form-data; name=\""

  /** `make_form_field` as written: (boundary, encoded headers + CRLF, name, value) into the template. */
  function MakeFormField(name: string, value: string, headers: seq<(string, string)>, boundary: string): string
  {
    "--" + boundary + CRLF
    + DISPOSITION + (EncodeHeaders(headers) + CRLF) + "\"" + CRLF
    + name + CRLF
    + value + CRLF
  }

  /**
   * Layout of a form-data chunk: it opens with the delimiter line; right after
   * `name="` come the encoded headers and CRLF, then a lone `"` line; the field
   * name follows that, and the value closes the chunk before its final CRLF.
   * Its length is 51 plus the variable parts.
   */
  lemma FormFieldLayout(name: string, value: string, headers: seq<(string, string)>, boundary: string)
    ensures var f := MakeFormField(name, value, headers, boundary);
      var eh := EncodeHeaders(headers);
      var n0 := 4 + |boundary| + |DISPOSITION|;
      && |f| == 51 + |boundary| + |eh| + |name| + |value|
      && f[..n0] == "--" + boundary + CRLF + DISPOSITION
      && f[n0..n0 + |eh| + 5] == eh + CRLF + "\"" + CRLF
      && f[n0 + |eh| + 5..n0 + |eh| + 5 + |name|] == name
      && f[|f| - 2 - |value|..] == value + CRLF
  {
    var f := MakeFormField(name, value, headers, boundary);
    var p := "--" + boundary + CRLF + DISPOSITION;
    var q := EncodeHeaders(headers) + CRLF + "\"" + CRLF;
    var tail := CRLF + value + CRLF;
    assert |DISPOSITION| == 38;
    FormFieldSplit(name, value, headers, boundary);
    Slices4(p, q, name, tail);
    assert f[|f| - 2 - |value|..] == tail[2..];
  }

  /** The chunk as a head, the header slot, the name and a tail. */
  lemma FormFieldSplit(name: string, value: string, headers: seq<(string, string)>, boundary: string)
    ensures MakeFormField(name, value, headers, boundary) ==
      ("--" + boundary + CRLF + DISPOSITION) + (EncodeHeaders(headers) + CRLF + "\"" + CRLF) + name + (CRLF + value + CRLF)
  {
  }

  /**
   * With no part headers the name does not stand inside the quotes: the
   * quoted `name="..."` value is a line break, and the field name follows on a line of its own.
   */
  lemma FormFieldWithoutHeaders(name: string, value: string, boundary: string)
    ensures MakeFormField(name, value, [], boundary) ==
      "--" + boundary + CRLF + DISPOSITION + CRLF + "\"" + CRLF + name + CRLF + value + CRLF
  {
    assert EncodeHeaders([]) == "";
    assert "" + CRLF == CRLF;
  }

  /** `b"--%b--\r\n\r\n" % boundary`, the closing delimiter. */
  function Terminator(boundary: string): string
  {
    "--" + boundary + "--" + CRLF + CRLF
  }

  function Concat(chunks: seq<string>): (s: string)
    ensures chunks == [] ==> s == ""
    decreases |chunks|
  {
    if chunks == [] then "" else Concat(chunks[..|chunks| - 1]) + chunks[|chunks| - 1]
  }

  lemma {:induction false} ConcatLength(chunks: seq<string>)
    ensures |Concat(chunks)| == SumLengths(chunks)
    decreases |chunks|
  {
    if chunks != [] {
      ConcatLength(chunks[..|chunks| - 1]);
      SumLengthsSplit(chunks);
    }
  }

  function SumLengths(chunks: seq<string>): nat
    decreases |chunks|
  {
    if chunks == [] then 0 else |chunks[0]| + SumLengths(chunks[1..])
  }

  lemma {:induction false} SumLengthsSplit(chunks: seq<string>)
    requires chunks != []
    ensures SumLengths(chunks) == SumLengths(chunks[..|chunks| - 1]) + |chunks[|chunks| - 1]|
    decreases |chunks|
  {
    if |chunks| > 1 {
      SumLengthsSplit(chunks[1..]);
      assert chunks[1..][..|chunks[1..]| - 1] == chunks[..|chunks| - 1][1..];
    }
  }

  /** Appending a chunk appends its bytes to the concatenation. */
  lemma ConcatAppend(chunks: seq<string>, c: string)
    ensures Concat(chunks + [c]) == Concat(chunks) + c
  {
    assert (chunks + [c])[..|chunks|] == chunks;
  }

  /** Two chunks concatenate in order. */
  lemma ConcatTwo(c1: string, c2: string)
    ensures Concat([c1, c2]) == c1 + c2
  {
    ConcatAppend([], c1);
    ConcatAppend([c1], c2);
    assert [c1] + [c2] == [c1, c2];
  }

  /** The closing delimiter of a 32-digit boundary is 40 bytes. */
  lemma TerminatorLength(boundary: string)
    requires |boundary| == 32
    ensures |Terminator(boundary)| == 40
  {
  }

  const FORM_DATA_PREFIX: string := "multipart/form-data; boundary="

  function FormContentType(boundary: string): (t: string)
    ensures |t| == |FORM_DATA_PREFIX| + |boundary|
    ensures t[..|FORM_DATA_PREFIX|] == FORM_DATA_PREFIX && t[|FORM_DATA_PREFIX|..] == boundary
  {
    FORM_DATA_PREFIX + boundary
  }

  class FormDataBuilder {
    const boundary: string
    var rawBody: Option<string>
    var chunks: seq<string>

    /** A new builder: a fresh boundary, no `_body`, no chunks. */
    constructor (uuid: Uuid)
      ensures boundary == MakeBoundary(uuid) && |boundary| == 32
      ensures rawBody == None && chunks == [] && Body() == ""
    {
      boundary := MakeBoundary(uuid);
      rawBody := None;
      chunks := [];
    }

    function Body(): string
      reads this
    {
      BodyOf(rawBody)
    }

    function ContentType(): (t: string)
      ensures t == FormContentType(boundary)
    {
      FormContentType(boundary)
    }

    function ContentLength(): (n: nat)
      reads this
      ensures n == |Body()|
    {
      |Body()|
    }

    function View(): (v: PartView)
      reads this
      ensures Consistent(v) && v.body == Body() && v.contentType == FormContentType(boundary)
    {
      PartView(Body(), ContentType(), ContentLength())
    }

    /** Appends exactly one chunk stamped with this builder's boundary; the body waits for `build`. */
    method AddFormData(name: string, value: string, headers: seq<(string, string)>)
      modifies this
      ensures chunks == old(chunks) + [MakeFormField(name, value, headers, boundary)]
      ensures rawBody == old(rawBody)
    {
      chunks := chunks + [MakeFormField(name, value, headers, boundary)];
    }

    /** `build` replaces the body, so building twice gives the same body. */
    method Build()
      modifies this
      ensures chunks == old(chunks)
      ensures Body() == Concat(chunks) + Terminator(boundary)
      ensures ContentLength() == SumLengths(chunks) + 4 + |boundary| + 4
    {
      ConcatLength(chunks);
      rawBody := Some(Concat(chunks) + Terminator(boundary));
    }

    /** `clean` empties body and chunks; the boundary is a constant of the object. */
    method Clean()
      modifies this
      ensures rawBody == Some("") && chunks == [] && Body() == ""
    {
      rawBody := Some("");
      chunks := [];
    }

    method Enter() returns (self: FormDataBuilder)
      ensures self == this
    {
      self := this;
    }

    method Exit()
      modifies this
      ensures chunks == old(chunks)
      ensures Body() == Concat(chunks) + Terminator(boundary)
    {
      Build();
    }
  }

  /** `build` with no fields gives only the 40-byte closing delimiter. */
  method BuildWithoutFields(uuid: Uuid) returns (body: string)
    ensures |body| == 40
    ensures body == "--" + MakeBoundary(uuid) + "--\r\n\r\n"
  {
    var b := new FormDataBuilder(uuid);
    b.Build();
    body := b.Body();
  }

  /**
   * `add_form_data("key", b"value", Headers())` then `build`: the bytes the code
   * writes, with `name="` followed by a line break and `key` on a line of its own.
   */
  method KeyValueExample(uuid: Uuid) returns (body: string, contentType: string)
    ensures var B := MakeBoundary(uuid);
      && body == "--" + B + CRLF + DISPOSITION + CRLF + "\"" + CRLF + "key" + CRLF + "value" + CRLF
                 + "--" + B + "--" + CRLF + CRLF
      && contentType == "multipart/form-data; boundary=" + B
  {
    var b := new FormDataBuilder(uuid);
    b.AddFormData("key", "value", []);
    assert b.chunks == [MakeFormField("key", "value", [], b.boundary)];
    b.Build();
    FormFieldWithoutHeaders("key", "value", b.boundary);
    ConcatAppend([], MakeFormField("key", "value", [], b.boundary));
    body := b.Body();
    contentType := b.ContentType();
  }

  /**
   * On any builder, building twice without changes in between gives the same
   * body as building once: the joined chunks and the closing delimiter.
   */
  method BuildIsIdempotent(b: FormDataBuilder) returns (once: string, twice: string)
    modifies b
    ensures once == twice
    ensures once == Concat(b.chunks) + Terminator(b.boundary) && b.chunks == old(b.chunks)
  {
    b.Build();
    once := b.Body();
    b.Build();
    twice := b.Body();
  }

}
