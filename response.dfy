/**
 * okie/response.py: the `Response` record and the `HTProtocol` callbacks that
 * the wire parser calls while it reads a response. The parser itself, and
 * the bytes-to-str decoding (the identity on the strings modelled here),
 * are not part of this model.
 */
module ResponseCollector {
  import opened Results
  import opened Octets
  import opened AssocList
  import opened HeaderTypes

  /** `sys.maxsize` on a 64-bit build: the largest value `len()` may return. */
  const MAX_SIZE: nat := 0x7FFF_FFFF_FFFF_FFFF

  /**
   * `int(self.headers[hk("content-length")])` as `len()` sees it: a TypeError
   * when no headers arrived, a KeyError when the header is absent, a
   * ValueError when the value is not decimal digits and an OverflowError
   * when it does not fit `len()`.
   */
  function LenOf(headers: Option<Entries>): (r: Result<nat>)
    ensures headers.None? ==> r == Err(TypeError)
    ensures headers.Some? && !HasKey(headers.value, "content-length") ==> r == Err(KeyError("content-length"))
    ensures headers.Some? && HasKey(headers.value, "content-length") ==>
      var v := Lookup(headers.value, "content-length");
      && v.Some?
      && (ParseDecimal(v.value).Err? ==> r == Err(ValueError))
      && (ParseDecimal(v.value).Ok? && ParseDecimal(v.value).value > MAX_SIZE ==> r == Err(OverflowError))
      && (ParseDecimal(v.value).Ok? && ParseDecimal(v.value).value <= MAX_SIZE ==> r == ParseDecimal(v.value))
    ensures r.Ok? ==> r.value <= MAX_SIZE
  {
    if headers.None? then Err(TypeError)
    else
      match Lookup(headers.value, "content-length")
      case None => Err(KeyError("content-length"))
      case Some(v) =>
        match ParseDecimal(v)
        case Err(e) => Err(e)
        case Ok(n) => if n > MAX_SIZE then Err(OverflowError) else Ok(n)
  }

  /** A content-length header holding the decimal rendering of n gives n back. */
  lemma LenOfDecimal(h: Entries, n: nat)
    requires Lookup(h, "content-length") == Some(Decimal(n)) && n <= MAX_SIZE
    ensures LenOf(Some(h)) == Ok(n)
  {
    DecimalRoundTrip(n);
  }

  class Response {
    var url: Option<string>
    var body: Option<string>
    var headers: Option<Entries>
    var status: Option<string>
    var statusCode: Option<int>
    var closed: Option<bool>

    /** Header keys arrive through `header_key`; `closed` is never set to False. */
    ghost predicate Valid()
      reads this
    {
      (headers.Some? ==> Normalised(headers.value)) && closed != Some(false)
    }

    /** Every slot starts as None. */
    constructor ()
      ensures Valid()
      ensures url == None && body == None && headers == None
      ensures status == None && statusCode == None && closed == None
    {
      url := None;
      body := None;
      headers := None;
      status := None;
      statusCode := None;
      closed := None;
    }

    /** `__len__`; `_cnt_len` is a class attribute outside `__slots__`, always -1, so the header decides. */
    function Len(): (r: Result<nat>)
      reads this
      ensures r == LenOf(headers)
    {
      LenOf(headers)
    }
  }

  class HTProtocol {
    const response: Response

    constructor ()
      ensures fresh(response) && response.Valid()
      ensures response.url == None && response.body == None && response.headers == None
      ensures response.status == None && response.statusCode == None && response.closed == None
    {
      response := new Response();
    }

    method OnUrl(url: string)
      modifies response
      ensures response.url == Some(url)
      ensures response.body == old(response.body) && response.headers == old(response.headers)
      ensures response.status == old(response.status) && response.statusCode == old(response.statusCode)
      ensures response.closed == old(response.closed)
    {
      response.url := Some(url);
    }

    /**
     * Stores the lower-cased name. A missing or empty dict is replaced by a
     * one-entry dict; otherwise the entry is inserted or overwritten, so a
     * repeated name keeps its last value.
     */
    method OnHeader(name: string, value: string)
      requires response.Valid()
      modifies response
      ensures response.Valid()
      ensures response.headers ==
        if old(response.headers).Some? && old(response.headers).value != []
        then Some(Put(old(response.headers).value, HeaderKey(name), value))
        else Some([(HeaderKey(name), value)])
      ensures forall k ::
                Lookup(response.headers.value, HeaderKey(k)) ==
                  if SameIgnoringCase(k, name) then Some(value)
                  else if old(response.headers).Some? then Lookup(old(response.headers).value, HeaderKey(k))
                  else None
      ensures response.url == old(response.url) && response.body == old(response.body)
      ensures response.status == old(response.status) && response.statusCode == old(response.statusCode)
      ensures response.closed == old(response.closed)
    {
      var k := HeaderKey(name);
      var before := response.headers;
      if response.headers.Some? && response.headers.value != [] {
        PutNormalised(response.headers.value, k, value);
        response.headers := Some(Put(response.headers.value, k, value));
      } else {
        response.headers := Some([(k, value)]);
      }
      forall k' ensures Lookup(response.headers.value, HeaderKey(k')) ==
        if SameIgnoringCase(k', name) then Some(value)
        else if before.Some? then Lookup(before.value, HeaderKey(k'))
        else None
      {
        HeaderKeyCaseInsensitive(k', name);
        PutLookup(if before.Some? then before.value else [], k, value, HeaderKey(k'));
      }
    }

    /** The body is replaced by the latest chunk, not extended. */
    method OnBody(body: string)
      modifies response
      ensures response.body == Some(body)
      ensures response.url == old(response.url) && response.headers == old(response.headers)
      ensures response.status == old(response.status) && response.statusCode == old(response.statusCode)
      ensures response.closed == old(response.closed)
    {
      response.body := Some(body);
    }

    method OnMessageComplete()
      requires response.Valid()
      modifies response
      ensures response.Valid()
      ensures response.closed == Some(true)
      ensures response.url == old(response.url) && response.body == old(response.body)
      ensures response.headers == old(response.headers)
      ensures response.status == old(response.status) && response.statusCode == old(response.statusCode)
    {
      response.closed := Some(true);
    }

    method OnStatus(status: string)
      modifies response
      ensures response.status == Some(status)
      ensures response.url == old(response.url) && response.body == old(response.body)
      ensures response.headers == old(response.headers)
      ensures response.statusCode == old(response.statusCode) && response.closed == old(response.closed)
    {
      response.status := Some(status);
    }

    method PutStatusCode(code: int)
      modifies response
      ensures response.statusCode == Some(code)
      ensures response.url == old(response.url) && response.body == old(response.body)
      ensures response.headers == old(response.headers)
      ensures response.status == old(response.status) && response.closed == old(response.closed)
    {
      response.statusCode := Some(code);
    }
  }

  /** A 200 carrying `Content-Length: 5` and the body `hello`. */
  method SmallResponse() returns (code: Option<int>, body: Option<string>, closed: Option<bool>, len: Result<nat>)
    ensures code == Some(200) && body == Some("hello") && closed == Some(true)
    ensures len == Ok(5)
  {
    var p := new HTProtocol();
    p.PutStatusCode(200);
    p.OnHeader("Content-Length", "5");
    assert HeaderKey("Content-Length") == "content-length";
    p.OnBody("hello");
    p.OnMessageComplete();
    LenOfDecimal(p.response.headers.value, 5);
    code, body, closed := p.response.statusCode, p.response.body, p.response.closed;
    len := p.response.Len();
  }

  /** A header seen twice, in different letter case, keeps only its last value. */
  method RepeatedHeader() returns (headers: Option<Entries>)
    ensures headers == Some([("x-a", "2")])
  {
    var p := new HTProtocol();
    p.OnHeader("X-A", "1");
    assert HeaderKey("X-A") == "x-a";
    assert p.response.headers == Some([("x-a", "1")]);
    FindDistinct([("x-a", "1")], 0);
    assert HeaderKey("x-a") == "x-a";
    p.OnHeader("x-a", "2");
    assert Find([("x-a", "1")], "x-a") == Some(0);
    assert p.response.headers == Some(Put([("x-a", "1")], "x-a", "2"));
    assert [("x-a", "1")][0 := ("x-a", "2")] == [("x-a", "2")];
    headers := p.response.headers;
  }
}
