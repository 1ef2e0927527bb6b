/**
 * okie/_builders/_full.py: `HTTPRequestFull`, the request assembler that adds
 * a user-agent and merges per-request headers. Its fields are set once, so it
 * is a value; `begin`, `headers`, `body` and `full` are functions of it.
 * The layout follows sections 2.1 and 3 of RFC 9112 (start line, field lines,
 * empty line, body), plus one more CRLF after the body.
 */
module FullRequest {
  import opened Results
  import opened Octets
  import opened AssocList
  import opened HeaderTypes
  import opened HeaderEncoding
  import opened PartBase

  const HTTP_USER_AGENT: string := "okie/0.x"

  datatype HttpRequestFull = HttpRequestFull(
    verb: string,
    host: string,
    path: string,
    subBuilder: Option<PartView>,
    headersData: Option<Entries>)
  {
    /** `b"%b %b HTTP/1.1" % (method, path)`. */
    function Begin(): string
    {
      verb + " " + path + " HTTP/1.1"
    }

    /** `Headers((("host", host), ("user-agent", HTTP_USER_AGENT)))`. */
    function BaseHeaders(): Entries
    {
      FromPairs([("host", host), ("user-agent", HTTP_USER_AGENT)])
    }

    /** `base.get_merged(self.headers_data)`: base values win. */
    function MergedHeaders(): Entries
    {
      Merged(BaseHeaders(), match headersData case None => [] case Some(h) => h)
    }

    /** `sub_builder is not None and sub_builder.body`. */
    predicate HasBody()
    {
      subBuilder.Some? && subBuilder.value.body != ""
    }

    function Headers(): string
    {
      EncodeHeaders(MergedHeaders()) + CRLF
      + if HasBody() then
          EncodeHeaders(FromPairs([("content-length", Decimal(subBuilder.value.contentLength)),
                                   ("content-type", subBuilder.value.contentType)])) + CRLF
        else ""
    }

    function Body(): string
    {
      if HasBody() then subBuilder.value.body else ""
    }

    /** `b"\r\n".join((begin, headers, body)) + b"\r\n"`. */
    function Full(): string
    {
      Begin() + CRLF + Headers() + CRLF + Body() + CRLF
    }
  }

  lemma BaseHeadersValue(host: string)
    ensures FromPairs([("host", host), ("user-agent", HTTP_USER_AGENT)]) ==
      [("host", host), ("user-agent", HTTP_USER_AGENT)]
  {
    var e := [("host", host), ("user-agent", HTTP_USER_AGENT)];
    assert Normalised(e) by {
      assert IsLowerCase("host") && IsLowerCase("user-agent");
    }
    FromPairsOfNormalised(e);
  }

  /**
   * The merged header block: `host` and `user-agent` keep their base values
   * whatever the per-request headers say; every other key reads the
   * per-request value; the per-request keys come first, in their order.
   */
  lemma MergedHeadersSpec(r: HttpRequestFull, k: string)
    requires r.headersData.Some? ==> Normalised(r.headersData.value)
    ensures var m := r.MergedHeaders();
      var o := if r.headersData.Some? then r.headersData.value else [];
      && Normalised(m)
      && Lookup(m, "host") == Some(r.host)
      && Lookup(m, "user-agent") == Some(HTTP_USER_AGENT)
      && (k != "host" && k != "user-agent" ==> Lookup(m, k) == Lookup(o, k))
      && |m| >= |o| && KeysOf(m)[..|o|] == KeysOf(o)
  {
    var base := [("host", r.host), ("user-agent", HTTP_USER_AGENT)];
    BaseHeadersValue(r.host);
    assert Normalised(base) by {
      assert IsLowerCase("host") && IsLowerCase("user-agent");
    }
    var o := if r.headersData.Some? then r.headersData.value else [];
    MergedSpec(base, o, k);
    MergedSpec(base, o, "host");
    MergedSpec(base, o, "user-agent");
    FindDistinct(base, 0);
    FindDistinct(base, 1);
    if k != "host" && k != "user-agent" {
      assert !HasKey(base, k);
    }
  }

  /**
   * The header block always ends in CRLF; the content lines follow the merged
   * block exactly when a sub-builder with a non-empty body is present, and they
   * name the decimal body length and the builder's content type.
   */
  lemma HeadersBlock(r: HttpRequestFull)
    requires r.subBuilder.Some? ==> Consistent(r.subBuilder.value)
    ensures r.Headers() == EncodeHeaders(r.MergedHeaders()) + CRLF +
      if r.HasBody() then
        "content-length: " + Decimal(|r.subBuilder.value.body|) + CRLF
        + "content-type: " + r.subBuilder.value.contentType + CRLF
      else ""
    ensures r.Headers()[|r.Headers()| - 2..] == CRLF
  {
    if r.HasBody() {
      var v := r.subBuilder.value;
      BodyHeaderLines(Decimal(v.contentLength), v.contentType);
      PrefixSuffix(EncodeHeaders(r.MergedHeaders()) + CRLF
        + ("content-length: " + Decimal(v.contentLength) + CRLF + "content-type: " + v.contentType), CRLF);
    } else {
      PrefixSuffix(EncodeHeaders(r.MergedHeaders()), CRLF);
    }
  }

  /** The two body header lines, in this order, exactly as given. */
  lemma BodyHeaderLines(len: string, contentType: string)
    ensures EncodeHeaders(FromPairs([("content-length", len), ("content-type", contentType)])) ==
      "content-length: " + len + CRLF + "content-type: " + contentType
  {
    var e := [("content-length", len), ("content-type", contentType)];
    assert Normalised(e) by {
      assert IsLowerCase("content-length") && IsLowerCase("content-type");
    }
    FromPairsOfNormalised(e);
    assert e[1..] == [("content-type", contentType)];
  }


  /** A builder with an empty body gives the same bytes as no builder at all. */
  lemma EmptyBodyLikeNoBuilder(r: HttpRequestFull, v: PartView)
    requires v.body == ""
    ensures r.(subBuilder := Some(v)).Full() == r.(subBuilder := None).Full()
  {
  }

  /** Framing of `b + CRLF + h + CRLF + body + CRLF` when h ends in CRLF. */
  lemma Framing(b: string, h: string, body: string)
    requires |h| >= 2 && h[|h| - 2..] == CRLF
    ensures var f := b + CRLF + h + CRLF + body + CRLF;
      var tail := CRLF + CRLF + body + CRLF;
      && |f| >= |b| + 2 + |tail|
      && f[..|b| + 2] == b + CRLF
      && f[|f| - |tail|..] == tail
  {
    var p := b + CRLF;
    var tail := CRLF + CRLF + body + CRLF;
    var lines := h[..|h| - 2];
    assert h == lines + CRLF;
    assert p + h + CRLF + body + CRLF == p + lines + tail;
    assert (p + lines + tail)[..|p|] == p;
    assert (p + lines + tail)[|p + lines|..] == tail;
  }

  /**
   * `full` frames the request: it opens with the start line and CRLF, and it
   * closes with the CRLF that ends the header block, the empty line, the body
   * and one more CRLF.
   */
  lemma FullFrames(r: HttpRequestFull)
    requires r.subBuilder.Some? ==> Consistent(r.subBuilder.value)
    ensures var f := r.Full();
      var tail := CRLF + CRLF + r.Body() + CRLF;
      && |f| >= |r.Begin()| + 2 + |tail|
      && f[..|r.Begin()| + 2] == r.Begin() + CRLF
      && f[|f| - |tail|..] == tail
  {
    HeadersBlock(r);
    Framing(r.Begin(), r.Headers(), r.Body());
  }

  /** Without per-request headers the merged block is host then user-agent. */
  lemma MergedWithoutExtraHeaders(r: HttpRequestFull)
    requires r.headersData.None?
    ensures r.MergedHeaders() == [("host", r.host), ("user-agent", HTTP_USER_AGENT)]
  {
    var base := [("host", r.host), ("user-agent", HTTP_USER_AGENT)];
    BaseHeadersValue(r.host);
    assert Normalised(base) by {
      assert IsLowerCase("host") && IsLowerCase("user-agent");
    }
    MergedWithEmpty(base);
  }

  lemma HeadersWithoutBody(r: HttpRequestFull)
    requires r.headersData.None? && !r.HasBody()
    ensures r.Headers() == "host: " + r.host + CRLF + "user-agent: okie/0.x" + CRLF
  {
    var base := [("host", r.host), ("user-agent", HTTP_USER_AGENT)];
    MergedWithoutExtraHeaders(r);
    assert base[1..] == [("user-agent", HTTP_USER_AGENT)];
    assert EncodeHeaders(base) == "host: " + r.host + CRLF + "user-agent: okie/0.x";
  }

  /**
   * A request with no body and no extra headers, such as
   * `GET /path HTTP/1.1\r\nhost: example.com\r\nuser-agent: okie/0.x\r\n\r\n\r\n`.
   */
  lemma RequestWithoutBody(verb: string, host: string, path: string)
    ensures HttpRequestFull(verb, host, path, None, None).Full() ==
      verb + " " + path + " HTTP/1.1" + CRLF + "host: " + host + CRLF + "user-agent: okie/0.x" + CRLF + CRLF + CRLF
  {
    var r := HttpRequestFull(verb, host, path, None, None);
    HeadersWithoutBody(r);
    var h := "host: " + host + CRLF + "user-agent: okie/0.x" + CRLF;
    assert r.Full() == r.Begin() + CRLF + h + CRLF + "" + CRLF;
  }
}
