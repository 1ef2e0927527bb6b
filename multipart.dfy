/**
 * okie/_builders/multipart.py: `make_binary_field` and `MultipartBuilder`,
 * the form-data builder with one more way to add a chunk. Boundary,
 * `content_type`, `add_form_data`, `build` and `clean` are those of
 * `FormDataBuilder`; the class below repeats them because the model has no
 * inheritance.
 */
module Multipart {
  import opened Results
  import opened Octets
  import opened HeaderEncoding
  import opened PartBase
  import opened FormData

  const FILENAME_SEP: string := "\"; filename=\""
  const CONTENT_TYPE_LINE: string := "content-type: "

  /** `filename or field_name`. */
  function FileNameOf(filename: string, fieldName: string): (f: string)
    ensures filename != "" ==> f == filename
    ensures filename == "" ==> f == fieldName
  {
    if filename != "" then filename else fieldName
  }

  /** Everything of a binary chunk before its payload. */
  function BinaryPartHead(fieldName: string, boundary: string, headers: seq<(string, string)>,
                          filename: string, contentType: string): string
  {
    "--" + boundary + CRLF
    + DISPOSITION + fieldName + FILENAME_SEP + FileNameOf(filename, fieldName) + "\"" + CRLF
    + CONTENT_TYPE_LINE + contentType + CRLF
    + EncodeHeaders(headers) + CRLF + CRLF
  }

  /** `make_binary_field`. */
  function MakeBinaryField(fieldName: string, boundary: string, headers: seq<(string, string)>,
                           binary: string, filename: string, contentType: string): string
  {
    BinaryPartHead(fieldName, boundary, headers, filename, contentType) + binary + CRLF
  }

  /** The payload is copied verbatim, just before the final CRLF. */
  lemma BinaryPayloadVerbatim(fieldName: string, boundary: string, headers: seq<(string, string)>,
                              binary: string, filename: string, contentType: string)
    ensures var f := MakeBinaryField(fieldName, boundary, headers, binary, filename, contentType);
      && |f| >= |binary| + 2
      && f[|f| - 2 - |binary|..|f| - 2] == binary
      && f[|f| - 2..] == CRLF
  {
    SliceMiddle(BinaryPartHead(fieldName, boundary, headers, filename, contentType), binary, CRLF);
  }

  /** The chunk length is 80 bytes of fixed text plus the lengths of its six variable parts. */
  lemma BinaryFieldLength(fieldName: string, boundary: string, headers: seq<(string, string)>,
                          binary: string, filename: string, contentType: string)
    ensures |MakeBinaryField(fieldName, boundary, headers, binary, filename, contentType)| ==
      80 + |boundary| + |fieldName| + |FileNameOf(filename, fieldName)| + |contentType|
      + |EncodeHeaders(headers)| + |binary|
  {
    assert |DISPOSITION| == 38 && |FILENAME_SEP| == 13 && |CONTENT_TYPE_LINE| == 14;
  }

  /** Right after `name="` stand the field name, `"; filename="`, the file name and the closing quote. */
  lemma BinaryDispositionSlot(fieldName: string, boundary: string, headers: seq<(string, string)>,
                              binary: string, filename: string, contentType: string)
    ensures var f := MakeBinaryField(fieldName, boundary, headers, binary, filename, contentType);
      var fn := FileNameOf(filename, fieldName);
      var n0 := 4 + |boundary| + |DISPOSITION|;
      && |f| >= n0 + |fieldName| + 14 + |fn|
      && f[..n0] == "--" + boundary + CRLF + DISPOSITION
      && f[n0..n0 + |fieldName| + 14 + |fn|] == fieldName + FILENAME_SEP + fn + "\""
  {
    var fn := FileNameOf(filename, fieldName);
    var p := "--" + boundary + CRLF + DISPOSITION;
    var q := fieldName + FILENAME_SEP + fn + "\"";
    var r := CRLF + CONTENT_TYPE_LINE + contentType + CRLF + EncodeHeaders(headers) + CRLF + CRLF;
    assert |DISPOSITION| == 38 && |FILENAME_SEP| == 13;
    BinaryFieldSplit(fieldName, boundary, headers, binary, filename, contentType);
    Slices4(p, q, r, binary + CRLF);
  }

  /** The chunk as the delimiter line, the disposition slot, the rest of the part head and the payload. */
  lemma BinaryFieldSplit(fieldName: string, boundary: string, headers: seq<(string, string)>,
                         binary: string, filename: string, contentType: string)
    ensures MakeBinaryField(fieldName, boundary, headers, binary, filename, contentType) ==
      ("--" + boundary + CRLF + DISPOSITION)
      + (fieldName + FILENAME_SEP + FileNameOf(filename, fieldName) + "\"")
      + (CRLF + CONTENT_TYPE_LINE + contentType + CRLF + EncodeHeaders(headers) + CRLF + CRLF)
      + (binary + CRLF)
  {
    Regroup("--" + boundary + CRLF + DISPOSITION, fieldName, FILENAME_SEP, FileNameOf(filename, fieldName), "\"",
            CRLF, CONTENT_TYPE_LINE, contentType, CRLF, EncodeHeaders(headers), CRLF, CRLF, binary, CRLF);
  }

  /** Re-bracketing the fourteen pieces of a binary chunk. */
  lemma Regroup(p: string, a: string, b: string, c: string, d: string,
                e1: string, e2: string, e3: string, e4: string, e5: string, e6: string, e7: string,
                x: string, y: string)
    ensures p + a + b + c + d + e1 + e2 + e3 + e4 + e5 + e6 + e7 + x + y ==
      p + (a + b + c + d) + (e1 + e2 + e3 + e4 + e5 + e6 + e7) + (x + y)
  {
  }

  /**
   * With no part headers the part head ends in three CRLFs: the blank line that
   * ends the part headers is followed by one more CRLF, which a reader of the
   * part takes as the first two bytes of the payload.
   */
  lemma BinaryFieldWithoutHeaders(fieldName: string, boundary: string, filename: string, contentType: string)
    ensures BinaryPartHead(fieldName, boundary, [], filename, contentType) ==
      "--" + boundary + CRLF + DISPOSITION + fieldName + FILENAME_SEP + FileNameOf(filename, fieldName) + "\"" + CRLF
      + CONTENT_TYPE_LINE + contentType + CRLF + CRLF + CRLF
  {
    assert EncodeHeaders([]) == "";
  }

  class MultipartBuilder {
    const boundary: string
    var rawBody: Option<string>
    var chunks: seq<string>

    constructor (uuid: Uuid)
      ensures boundary == MakeBoundary(uuid) && |boundary| == 32
      ensures rawBody == None && chunks == [] && Body() == ""
    {
      boundary := MakeBoundary(uuid);
      rawBody := None;
      chunks := [];
    }

    function Body(): string
      reads this
    {
      BodyOf(rawBody)
    }

    function ContentType(): (t: string)
      ensures t == FormContentType(boundary)
    {
      FormContentType(boundary)
    }

    function ContentLength(): (n: nat)
      reads this
      ensures n == |Body()|
    {
      |Body()|
    }

    function View(): (v: PartView)
      reads this
      ensures Consistent(v) && v.body == Body() && v.contentType == FormContentType(boundary)
    {
      PartView(Body(), ContentType(), ContentLength())
    }

    method AddFormData(name: string, value: string, headers: seq<(string, string)>)
      modifies this
      ensures chunks == old(chunks) + [MakeFormField(name, value, headers, boundary)]
      ensures rawBody == old(rawBody)
    {
      chunks := chunks + [MakeFormField(name, value, headers, boundary)];
    }

    /** Appends one binary chunk stamped with this builder's boundary; the body waits for `build`. */
    method AddBinaryData(fieldName: string, headers: seq<(string, string)>, binary: string,
                         filename: string, contentType: string)
      modifies this
      ensures chunks == old(chunks) + [MakeBinaryField(fieldName, boundary, headers, binary, filename, contentType)]
      ensures rawBody == old(rawBody)
    {
      chunks := chunks + [MakeBinaryField(fieldName, boundary, headers, binary, filename, contentType)];
    }

    method Build()
      modifies this
      ensures chunks == old(chunks)
      ensures Body() == Concat(chunks) + Terminator(boundary)
    {
      rawBody := Some(Concat(chunks) + Terminator(boundary));
    }

    method Clean()
      modifies this
      ensures rawBody == Some("") && chunks == [] && Body() == ""
    {
      rawBody := Some("");
      chunks := [];
    }

    method Enter() returns (self: MultipartBuilder)
      ensures self == this
    {
      self := this;
    }

    method Exit()
      modifies this
      ensures chunks == old(chunks)
      ensures Body() == Concat(chunks) + Terminator(boundary)
    {
      Build();
    }
  }

  /** A text field and then a file: the built body holds the two chunks in call order, then the closing delimiter. */
  method MixedFieldsInCallOrder(uuid: Uuid, name: string, value: string, file: string, payload: string)
    returns (body: string)
    ensures var B := MakeBoundary(uuid);
      body == MakeFormField(name, value, [], B)
              + MakeBinaryField(file, B, [], payload, "", "application/octet-stream")
              + Terminator(B)
  {
    var b := new MultipartBuilder(uuid);
    b.AddFormData(name, value, []);
    b.AddBinaryData(file, [], payload, "", "application/octet-stream");
    ConcatTwo(b.chunks[0], b.chunks[1]);
    b.Build();
    body := b.Body();
  }
}
