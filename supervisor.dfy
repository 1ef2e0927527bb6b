/**
 * okie/builders/fline.py: `SupervisorBuilder`, the assembler the client uses.
 * Its constructor computes the request bytes once: start line, `host`, and,
 * only for a sub-builder with a non-empty body, `content-length`,
 * `content-type`, an empty line and the body; then one CRLF more.
 * No user-agent and no custom header is ever written.
 */
module Supervisor {
  import opened Results
  import opened Octets
  import opened PartBase

  /** `b"%b %b HTTP/1.1\r\nhost: %b\r\n" % (method, path, host)`. */
  function RequestHead(verb: string, host: string, path: string): string
  {
    verb + " " + path + " HTTP/1.1" + CRLF + "host: " + host + CRLF
  }

  /** `SupervisorBuilder(method, host, path, sub_builder).body`. */
  function SupervisorBody(verb: string, host: string, path: string, subBuilder: Option<PartView>): string
  {
    var head := RequestHead(verb, host, path);
    if subBuilder.Some? && subBuilder.value.body != "" then
      var v := subBuilder.value;
      head + "content-length: " + Decimal(v.contentLength) + CRLF
      + "content-type: " + v.contentType + CRLF
      + CRLF
      + v.body + CRLF
      + CRLF
    else head + CRLF
  }

  /** Without a builder, or with an empty body, the request is the head and one CRLF. */
  lemma WithoutBody(verb: string, host: string, path: string, subBuilder: Option<PartView>)
    requires subBuilder.None? || subBuilder.value.body == ""
    ensures SupervisorBody(verb, host, path, subBuilder) == RequestHead(verb, host, path) + CRLF
    ensures SupervisorBody(verb, host, path, subBuilder) == SupervisorBody(verb, host, path, None)
  {
  }

  /**
   * With a non-empty body: the head, then a `content-length` line whose digits
   * parse back to the body length, the `content-type` line, an empty line, the
   * body verbatim and two CRLFs.
   */
  lemma WithBody(verb: string, host: string, path: string, v: PartView)
    requires Consistent(v) && v.body != ""
    ensures var out := SupervisorBody(verb, host, path, Some(v));
      var digits := Decimal(|v.body|);
      && ParseDecimal(digits) == Ok(|v.body|)
      && out == RequestHead(verb, host, path)
               + "content-length: " + digits + CRLF
               + "content-type: " + v.contentType + CRLF + CRLF
               + v.body + CRLF + CRLF
      && |out| >= |v.body| + 4
      && out[|out| - |v.body| - 4..|out| - 4] == v.body
      && out[|out| - 4..] == CRLF + CRLF
  {
    DecimalRoundTrip(|v.body|);
    var out := SupervisorBody(verb, host, path, Some(v));
    var pre := RequestHead(verb, host, path) + "content-length: " + Decimal(|v.body|) + CRLF
               + "content-type: " + v.contentType + CRLF + CRLF;
    assert out == pre + v.body + (CRLF + CRLF);
    SliceMiddle(pre, v.body, CRLF + CRLF);
  }

  /** Every request starts with the head and ends in CRLF. */
  lemma HeadAndEnd(verb: string, host: string, path: string, subBuilder: Option<PartView>)
    ensures var out := SupervisorBody(verb, host, path, subBuilder);
      var head := RequestHead(verb, host, path);
      && |out| >= |head| + 2
      && out[..|head|] == head
      && out[|out| - 2..] == CRLF
  {
    var head := RequestHead(verb, host, path);
    if subBuilder.Some? && subBuilder.value.body != "" {
      var v := subBuilder.value;
      var d := Decimal(v.contentLength);
      var mid := "content-length: " + d + CRLF + "content-type: " + v.contentType + CRLF + CRLF + v.body + CRLF;
      Regroup(head, "content-length: ", d, CRLF, "content-type: ", v.contentType, CRLF, CRLF, v.body, CRLF, CRLF);
      PrefixSuffix(head, mid + CRLF);
      PrefixSuffix(head + mid, CRLF);
    } else {
      PrefixSuffix(head, CRLF);
    }
  }

  /** Re-bracketing the head and the ten pieces after it. */
  lemma Regroup(h: string, a1: string, a2: string, a3: string, a4: string, a5: string,
                a6: string, a7: string, a8: string, a9: string, a10: string)
    ensures h + a1 + a2 + a3 + a4 + a5 + a6 + a7 + a8 + a9 + a10 ==
      h + (a1 + a2 + a3 + a4 + a5 + a6 + a7 + a8 + a9) + a10
    ensures h + (a1 + a2 + a3 + a4 + a5 + a6 + a7 + a8 + a9) + a10 ==
      h + (a1 + a2 + a3 + a4 + a5 + a6 + a7 + a8 + a9 + a10)
  {
  }

}
