/**
 * okie/builders/base.py: the older `OkieRequestPart`, whose body is a plain
 * `body` field that starts as empty bytes.
 */
module LegacyBase {
  import opened PartBase

  class OkieRequestPart {
    var body: string

    constructor ()
      ensures body == ""
    {
      body := "";
    }

    function ContentType(): (t: string)
    {
      ANY_CONTENT_TYPE
    }

    function ContentLength(): (n: nat)
      reads this
      ensures n == |body|
    {
      |body|
    }

    function View(): (v: PartView)
      reads this
      ensures Consistent(v) && v.body == body && v.contentType == "*/*"
    {
      PartView(body, ContentType(), ContentLength())
    }

    method Build()
      ensures body == old(body)
    {
    }

    method Clean()
      modifies this
      ensures body == ""
    {
      body := "";
    }

    method Enter() returns (self: OkieRequestPart)
      ensures self == this
    {
      self := this;
    }

    method Exit()
      ensures body == old(body)
    {
      Build();
    }
  }
}
