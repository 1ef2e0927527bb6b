/**
 * okie/builders/form_data.py: the older form-data builder. Its
 * `make_form_field` swaps its arguments differently from the newer one: the
 * encoded part headers (without a CRLF of their own) stand inside
 * `name="..."`, and the name is followed by an empty line before the value.
 */
module LegacyFormData {
  import opened Octets
  import opened HeaderEncoding
  import opened PartBase
  import FormData

  /** `b"%032x" % uuid.uuid4().int`; the same text as the newer `make_boundary`. */
  function MakeBoundary(uuid: Uuid): (b: string)
    ensures b == FormData.MakeBoundary(uuid)
    ensures |b| == 32 && forall i :: 0 <= i < 32 ==> IsLowerHexDigit(b[i])
  {
    Pow16Uuid();
    Hex32Shape(uuid);
    Hex32(uuid)
  }

  function MakeFormField(name: string, value: string, headers: seq<(string, string)>, boundary: string): string
  {
    "--" + boundary + CRLF
    + FormData.DISPOSITION + EncodeHeaders(headers) + "\"" + CRLF
    + name + CRLF + CRLF
    + value + CRLF
  }

  /**
   * The older layout differs from the newer one: it is the newer chunk with the
   * CRLF after the encoded headers taken out and an empty line added after
   * the name, so both are equally long.
   */
  lemma DiffersFromNewerLayout(name: string, value: string, headers: seq<(string, string)>, boundary: string)
    ensures var eh := EncodeHeaders(headers);
      var head := "--" + boundary + CRLF + FormData.DISPOSITION + eh;
      && MakeFormField(name, value, headers, boundary) == head + "\"" + CRLF + name + CRLF + CRLF + value + CRLF
      && FormData.MakeFormField(name, value, headers, boundary) == head + CRLF + "\"" + CRLF + name + CRLF + value + CRLF
      && |FormData.MakeFormField(name, value, headers, boundary)| == |MakeFormField(name, value, headers, boundary)|
  {
    OlderLayout(name, value, headers, boundary);
    NewerLayout(name, value, headers, boundary);
  }

  lemma OlderLayout(name: string, value: string, headers: seq<(string, string)>, boundary: string)
    ensures MakeFormField(name, value, headers, boundary) ==
      "--" + boundary + CRLF + FormData.DISPOSITION + EncodeHeaders(headers) + "\"" + CRLF + name + CRLF + CRLF + value + CRLF
  {
  }

  lemma NewerLayout(name: string, value: string, headers: seq<(string, string)>, boundary: string)
    ensures FormData.MakeFormField(name, value, headers, boundary) ==
      "--" + boundary + CRLF + FormData.DISPOSITION + EncodeHeaders(headers) + CRLF + "\"" + CRLF + name + CRLF + value + CRLF
  {
  }

  class FormDataBuilder {
    const boundary: string
    var body: string
    var chunks: seq<string>

    constructor (uuid: Uuid)
      ensures boundary == MakeBoundary(uuid) && |boundary| == 32
      ensures body == "" && chunks == []
    {
      boundary := MakeBoundary(uuid);
      body := "";
      chunks := [];
    }

    function ContentType(): (t: string)
      ensures t == FormData.FormContentType(boundary)
    {
      FormData.FormContentType(boundary)
    }

    function ContentLength(): (n: nat)
      reads this
      ensures n == |body|
    {
      |body|
    }

    function View(): (v: PartView)
      reads this
      ensures Consistent(v) && v.body == body && v.contentType == FormData.FormContentType(boundary)
    {
      PartView(body, ContentType(), ContentLength())
    }

    method AddFormData(name: string, value: string, headers: seq<(string, string)>)
      modifies this
      ensures chunks == old(chunks) + [MakeFormField(name, value, headers, boundary)]
      ensures body == old(body)
    {
      chunks := chunks + [MakeFormField(name, value, headers, boundary)];
    }

    method Build()
      modifies this
      ensures chunks == old(chunks)
      ensures body == FormData.Concat(chunks) + FormData.Terminator(boundary)
    {
      body := FormData.Concat(chunks) + FormData.Terminator(boundary);
    }

    method Clean()
      modifies this
      ensures body == "" && chunks == []
    {
      body := "";
      chunks := [];
    }

    method Enter() returns (self: FormDataBuilder)
      ensures self == this
    {
      self := this;
    }

    method Exit()
      modifies this
      ensures chunks == old(chunks)
      ensures body == FormData.Concat(chunks) + FormData.Terminator(boundary)
    {
      Build();
    }
  }

  /**
   * On any builder, building twice without changes in between gives the same
   * body as building once: `build` starts from the chunks alone.
   */
  method BuildIsIdempotent(b: FormDataBuilder) returns (once: string, twice: string)
    modifies b
    ensures once == twice
    ensures once == FormData.Concat(b.chunks) + FormData.Terminator(b.boundary) && b.chunks == old(b.chunks)
  {
    b.Build();
    once := b.body;
    b.Build();
    twice := b.body;
  }

  /** One field without part headers: the body is that chunk and the closing delimiter. */
  method OneFieldBody(uuid: Uuid, name: string, value: string) returns (body: string)
    ensures var B := MakeBoundary(uuid);
      body == MakeFormField(name, value, [], B) + FormData.Terminator(B)
  {
    var b := new FormDataBuilder(uuid);
    b.AddFormData(name, value, []);
    var chunk := b.chunks[0];
    assert b.chunks == [chunk];
    assert FormData.Concat([chunk]) == chunk by {
      assert [chunk][..0] == [];
    }
    b.Build();
    body := b.body;
  }
}
