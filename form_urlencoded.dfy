/**
 * okie/_builders/form_urlencoded.py: the url-encoded body builder. Fields are
 * a dict (insert or overwrite); `build` APPENDS the encoding of the current
 * fields to the existing body; `clean` empties both.
 */
module FormUrlEncoded {
  import opened Results
  import opened AssocList
  import opened UrlEncoding
  import opened PartBase

  const FORM_URLENCODED: string := "application/x-www-form-urlencoded"

  class FormURLEncodedBuilder {
    var rawBody: Option<string>
    var fields: seq<(string, string)>

    ghost predicate Valid()
      reads this
    {
      DistinctKeys(fields)
    }

    constructor ()
      ensures Valid() && rawBody == None && fields == [] && Body() == ""
    {
      rawBody := None;
      fields := [];
    }

    function Body(): string
      reads this
    {
      BodyOf(rawBody)
    }

    function ContentType(): (t: string)
      ensures t == "application/x-www-form-urlencoded"
    {
      FORM_URLENCODED
    }

    function ContentLength(): (n: nat)
      reads this
      ensures n == |Body()|
    {
      |Body()|
    }

    function View(): (v: PartView)
      reads this
      ensures Consistent(v) && v.body == Body() && v.contentType == FORM_URLENCODED
    {
      PartView(Body(), ContentType(), ContentLength())
    }

    /** `intermediate[name] = value`: the last value wins, a known name keeps its position. */
    method AddField(name: string, value: string)
      requires Valid()
      modifies this
      ensures Valid()
      ensures fields == Put(old(fields), name, value) && rawBody == old(rawBody)
    {
      PutDistinct(fields, name, value);
      fields := Put(fields, name, value);
    }

    /** `_body = body + urlencode(intermediate)`; the fields stay. */
    method Build()
      requires Valid()
      modifies this
      ensures Valid() && fields == old(fields)
      ensures Body() == old(Body()) + UrlEncode(fields)
      ensures ContentLength() == old(ContentLength()) + |UrlEncode(fields)|
    {
      rawBody := Some(Body() + UrlEncode(fields));
    }

    /** `clean`: empty body and no fields. */
    method Clean()
      modifies this
      ensures Valid() && rawBody == Some("") && fields == [] && Body() == ""
    {
      rawBody := Some("");
      fields := [];
    }

    method Enter() returns (self: FormURLEncodedBuilder)
      ensures self == this
    {
      self := this;
    }

    /** `__exit__` calls `build` exactly once. */
    method Exit()
      requires Valid()
      modifies this
      ensures Valid() && fields == old(fields)
      ensures Body() == old(Body()) + UrlEncode(fields)
    {
      Build();
    }

    /**
     * A `with builder:` block whose body adds the given fields, one `add_field`
     * each; when `raisesAfter` is `Some(n)` the block raises after its first n
     * additions. Either way `__exit__` builds once, and the error propagates.
     */
    method WithBlock(adds: seq<(string, string)>, raisesAfter: Option<nat>, error: PyError)
      returns (r: Outcome)
      requires Valid()
      modifies this
      ensures Valid()
      ensures var done := if raisesAfter.Some? && raisesAfter.value < |adds| then raisesAfter.value else |adds|;
        fields == PutAll(old(fields), adds[..done])
      ensures Body() == old(Body()) + UrlEncode(fields)
      ensures r == (if raisesAfter.Some? && raisesAfter.value < |adds| then Raised(error) else Done)
    {
      var self := Enter();
      var done := if raisesAfter.Some? && raisesAfter.value < |adds| then raisesAfter.value else |adds|;
      var i := 0;
      while i < done
        invariant 0 <= i <= done && Valid()
        invariant fields == PutAll(old(fields), adds[..i])
        invariant rawBody == old(rawBody)
      {
        assert adds[..i + 1][..i] == adds[..i];
        AddField(adds[i].0, adds[i].1);
        i := i + 1;
      }
      r := if done < |adds| then Raised(error) else Done;
      Exit();
    }
  }

  /** Field insertion in order, as a sequence of `add_field` calls does it. */
  function PutAll(e: seq<(string, string)>, adds: seq<(string, string)>): seq<(string, string)>
    decreases |adds|
  {
    if adds == [] then e
    else Put(PutAll(e, adds[..|adds| - 1]), adds[|adds| - 1].0, adds[|adds| - 1].1)
  }

  /**
   * Reusing a builder after `clean`: `add_field("a", "1")`, `build`, `clean`,
   * `add_field("b", "2")`, `build` leaves exactly `b=2`.
   */
  method CleanThenReuse() returns (body: string)
    ensures body == "b=2"
  {
    var b := new FormURLEncodedBuilder();
    b.AddField("a", "1");
    b.Build();
    b.Clean();
    b.AddField("b", "2");
    assert b.fields == [("b", "2")];
    b.Build();
    assert QuotePlus("b") == "b" && QuotePlus("2") == "2";
    body := b.Body();
  }

  /** Two builds without `clean` leave two copies of the encoding, with no `&` between them. */
  method BuildTwice() returns (body: string)
    ensures body == "a=1a=1"
  {
    var b := new FormURLEncodedBuilder();
    b.AddField("a", "1");
    assert b.fields == [("a", "1")];
    b.Build();
    b.Build();
    assert QuotePlus("a") == "a" && QuotePlus("1") == "1";
    body := b.Body();
  }

  /** With no fields, `build` leaves the body as it was. */
  method BuildWithoutFields() returns (before: string, after: string)
    ensures before == after == ""
  {
    var b := new FormURLEncodedBuilder();
    before := b.Body();
    b.Build();
    after := b.Body();
  }
}
