/**
 * okie/_builders/base.py: `OkieRequestPart`, the base request-body builder.
 * The body is stored as an optional `_body` and read as `_body or b""`.
 * `PartView` is what a request assembler reads from any builder: its body,
 * its content type and its content length.
 */
module PartBase {
  import opened Results

  datatype PartView = PartView(body: string, contentType: string, contentLength: nat)

  /** A view whose content length is the length of its body, as every builder's is. */
  predicate Consistent(v: PartView)
  {
    v.contentLength == |v.body|
  }

  /** `self._body or b""`. */
  function BodyOf(raw: Option<string>): (b: string)
    ensures raw.None? ==> b == ""
    ensures raw.Some? ==> b == raw.value
  {
    match raw
    case None => ""
    case Some(x) => x
  }

  const ANY_CONTENT_TYPE: string := "*/*"

  class OkieRequestPart {
    var rawBody: Option<string>

    /** A fresh part has no `_body` yet, so its body reads as empty. */
    constructor ()
      ensures rawBody == None && Body() == ""
    {
      rawBody := None;
    }

    function Body(): string
      reads this
    {
      BodyOf(rawBody)
    }

    function ContentType(): (t: string)
    {
      ANY_CONTENT_TYPE
    }

    /** `content_length` is the length of the body in every state. */
    function ContentLength(): (n: nat)
      reads this
      ensures n == |Body()|
    {
      |Body()|
    }

    function View(): (v: PartView)
      reads this
      ensures Consistent(v) && v.body == Body() && v.contentType == "*/*"
    {
      PartView(Body(), ContentType(), ContentLength())
    }

    /** The base `build` does nothing. */
    method Build()
      ensures rawBody == old(rawBody)
    {
    }

    /** `clean` sets `_body` to empty bytes. */
    method Clean()
      modifies this
      ensures rawBody == Some("") && Body() == ""
    {
      rawBody := Some("");
    }

    /** `__enter__` returns the builder itself. */
    method Enter() returns (self: OkieRequestPart)
      ensures self == this
    {
      self := this;
    }

    /** `__exit__` runs `build` once, whatever the exit path; here that changes nothing. */
    method Exit()
      ensures rawBody == old(rawBody)
    {
      Build();
    }
  }
}
