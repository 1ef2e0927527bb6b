/**
 * okie/builders/multipart.py: the older `make_binary_field` (the same bytes
 * as the newer one) and a `MultipartBuilder` whose `add_binary_data` appends
 * to `self.data`, an attribute no class in its chain defines: the call
 * always raises AttributeError before the chunk is even formatted.
 */
module LegacyMultipart {
  import opened Results
  import opened Octets
  import opened HeaderEncoding
  import opened PartBase
  import FormData
  import Multipart
  import LegacyFormData

  function MakeBinaryField(fieldName: string, boundary: string, headers: seq<(string, string)>,
                           binary: string, filename: string, contentType: string): string
  {
    "--" + boundary + CRLF
    + FormData.DISPOSITION + fieldName + Multipart.FILENAME_SEP + (if filename != "" then filename else fieldName) + "\"" + CRLF
    + Multipart.CONTENT_TYPE_LINE + contentType + CRLF
    + EncodeHeaders(headers) + CRLF + CRLF
    + binary + CRLF
  }

  /** The older binary chunk has exactly the bytes of the newer one. */
  lemma SameAsNewerBinaryField(fieldName: string, boundary: string, headers: seq<(string, string)>,
                               binary: string, filename: string, contentType: string)
    ensures MakeBinaryField(fieldName, boundary, headers, binary, filename, contentType)
         == Multipart.MakeBinaryField(fieldName, boundary, headers, binary, filename, contentType)
  {
  }

  class MultipartBuilder {
    const boundary: string
    var body: string
    var chunks: seq<string>

    constructor (uuid: Uuid)
      ensures boundary == LegacyFormData.MakeBoundary(uuid) && |boundary| == 32
      ensures body == "" && chunks == []
    {
      boundary := LegacyFormData.MakeBoundary(uuid);
      body := "";
      chunks := [];
    }

    function ContentType(): (t: string)
      ensures t == FormData.FormContentType(boundary)
    {
      FormData.FormContentType(boundary)
    }

    function ContentLength(): (n: nat)
      reads this
      ensures n == |body|
    {
      |body|
    }

    function View(): (v: PartView)
      reads this
      ensures Consistent(v) && v.body == body && v.contentType == FormData.FormContentType(boundary)
    {
      PartView(body, ContentType(), ContentLength())
    }

    method AddFormData(name: string, value: string, headers: seq<(string, string)>)
      modifies this
      ensures chunks == old(chunks) + [LegacyFormData.MakeFormField(name, value, headers, boundary)]
      ensures body == old(body)
    {
      chunks := chunks + [LegacyFormData.MakeFormField(name, value, headers, boundary)];
    }

    /** `self.data.append(...)`: always AttributeError; body and chunks stay as they were. */
    method AddBinaryData(fieldName: string, headers: seq<(string, string)>, binary: string,
                         filename: string, contentType: string) returns (r: Outcome)
      ensures r == Raised(AttributeError("data"))
    {
      r := Raised(AttributeError("data"));
    }

    method Build()
      modifies this
      ensures chunks == old(chunks)
      ensures body == FormData.Concat(chunks) + FormData.Terminator(boundary)
    {
      body := FormData.Concat(chunks) + FormData.Terminator(boundary);
    }

    method Clean()
      modifies this
      ensures body == "" && chunks == []
    {
      body := "";
      chunks := [];
    }

    method Enter() returns (self: MultipartBuilder)
      ensures self == this
    {
      self := this;
    }

    method Exit()
      modifies this
      ensures chunks == old(chunks)
      ensures body == FormData.Concat(chunks) + FormData.Terminator(boundary)
    {
      Build();
    }
  }

  /** A failed `add_binary_data` leaves the builder exactly as it was. */
  method BinaryDataNeverLands(uuid: Uuid, name: string, value: string, payload: string)
    returns (r: Outcome, chunksBefore: seq<string>, chunksAfter: seq<string>, bodyAfter: string)
    ensures r.Raised? && r.error.AttributeError?
    ensures chunksAfter == chunksBefore && |chunksAfter| == 1 && bodyAfter == ""
  {
    var b := new MultipartBuilder(uuid);
    b.AddFormData(name, value, []);
    chunksBefore := b.chunks;
    r := b.AddBinaryData("file", [], payload, "", "application/octet-stream");
    chunksAfter := b.chunks;
    bodyAfter := b.body;
  }
}
