/**
 * okie/builders/utils.py: `encode_headers` renders a mapping as
 * `key: value` lines joined by CRLF, in iteration order, with no CRLF before
 * the first line or after the last.
 */
module HeaderEncoding {
  import opened Octets

  function HeaderLine(k: string, v: string): string
  {
    k + ": " + v
  }

  function EncodeHeaders(h: seq<(string, string)>): string
    decreases |h|
  {
    if h == [] then ""
    else if |h| == 1 then HeaderLine(h[0].0, h[0].1)
    else HeaderLine(h[0].0, h[0].1) + CRLF + EncodeHeaders(h[1..])
  }

  /** Sum over the entries of |key| + |value| + 2 (the ": "). */
  function LinesLength(h: seq<(string, string)>): nat
    decreases |h|
  {
    if h == [] then 0 else |h[0].0| + |h[0].1| + 2 + LinesLength(h[1..])
  }

  lemma EncodeEmpty()
    ensures EncodeHeaders([]) == ""
  {
  }

  /** One entry encodes to exactly its own line, with no CRLF. */
  lemma EncodeSingle(k: string, v: string)
    ensures EncodeHeaders([(k, v)]) == k + ": " + v
  {
  }

  /** Adding an entry at the end adds one CRLF and its line. */
  lemma {:induction false} EncodeAppend(h: seq<(string, string)>, k: string, v: string)
    requires h != []
    ensures EncodeHeaders(h + [(k, v)]) == EncodeHeaders(h) + CRLF + HeaderLine(k, v)
    decreases |h|
  {
    var h' := h + [(k, v)];
    assert h'[0] == h[0];
    if |h| > 1 {
      assert h'[1..] == h[1..] + [(k, v)];
      EncodeAppend(h[1..], k, v);
    } else {
      assert h'[1..] == [(k, v)];
    }
  }

  /** The output length: the lines plus 2 bytes of CRLF between each two of them. */
  lemma {:induction false} EncodeLength(h: seq<(string, string)>)
    requires h != []
    ensures |EncodeHeaders(h)| == LinesLength(h) + 2 * (|h| - 1)
    decreases |h|
  {
    if |h| > 1 {
      EncodeLength(h[1..]);
    }
  }

  /** The first line comes first: the output starts with `k0: v0`, followed by CRLF when more lines follow. */
  lemma EncodeStartsWithFirst(h: seq<(string, string)>)
    requires |h| > 1
    ensures EncodeHeaders(h)[..|HeaderLine(h[0].0, h[0].1)| + 2] == HeaderLine(h[0].0, h[0].1) + CRLF
  {
  }
}
