/**
 * okie/builders/form_urlencoded.py: the older url-encoded builder; `build`
 * appends (`self.body += ...`).
 */
module LegacyFormUrlEncoded {
  import opened AssocList
  import opened UrlEncoding
  import opened PartBase
  import FormUrlEncoded

  class FormURLEncodedBuilder {
    var body: string
    var fields: seq<(string, string)>

    ghost predicate Valid()
      reads this
    {
      DistinctKeys(fields)
    }

    constructor ()
      ensures Valid() && body == "" && fields == []
    {
      body := "";
      fields := [];
    }

    function ContentType(): (t: string)
      ensures t == "application/x-www-form-urlencoded"
    {
      FormUrlEncoded.FORM_URLENCODED
    }

    function ContentLength(): (n: nat)
      reads this
      ensures n == |body|
    {
      |body|
    }

    function View(): (v: PartView)
      reads this
      ensures Consistent(v) && v.body == body && v.contentType == "application/x-www-form-urlencoded"
    {
      PartView(body, ContentType(), ContentLength())
    }

    method AddField(name: string, value: string)
      requires Valid()
      modifies this
      ensures Valid()
      ensures fields == Put(old(fields), name, value) && body == old(body)
    {
      PutDistinct(fields, name, value);
      fields := Put(fields, name, value);
    }

    method Build()
      requires Valid()
      modifies this
      ensures Valid() && fields == old(fields)
      ensures body == old(body) + UrlEncode(fields)
    {
      body := body + UrlEncode(fields);
    }

    method Clean()
      modifies this
      ensures Valid() && body == "" && fields == []
    {
      body := "";
      fields := [];
    }

    method Enter() returns (self: FormURLEncodedBuilder)
      ensures self == this
    {
      self := this;
    }

    method Exit()
      requires Valid()
      modifies this
      ensures Valid() && fields == old(fields)
      ensures body == old(body) + UrlEncode(fields)
    {
      Build();
    }
  }

  /** Overwriting a field keeps its first position: `a`, `b`, then `a` again encodes as `a=3&b=2`. */
  method OverwriteKeepsPosition() returns (body: string)
    ensures body == "a=3&b=2"
  {
    var b := new FormURLEncodedBuilder();
    b.AddField("a", "1");
    b.AddField("b", "2");
    assert b.fields == [("a", "1"), ("b", "2")];
    b.AddField("a", "3");
    assert b.fields == [("a", "3"), ("b", "2")];
    b.Build();
    assert QuotePlus("a") == "a" && QuotePlus("3") == "3";
    assert QuotePlus("b") == "b" && QuotePlus("2") == "2";
    body := b.body;
  }
}
