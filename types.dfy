/**
 * okie/types.py: the header key normalisation and the case-insensitive
 * `Headers` mapping. `header_key(k)` is the plain lower-cased string
 * (`str.lower()` drops the subclass), so keys compare with ordinary equality.
 * Field names are case-insensitive as section 5.1 of RFC 9110 requires.
 */
module HeaderTypes {
  import opened Results
  import opened AssocList

  type Entries = seq<(string, string)>

  /** ASCII lower-casing of one character. */
  function LowerChar(c: char): char
  {
    if 'A' <= c <= 'Z' then (c as int + 32) as char else c
  }

  predicate IsLowerCase(s: string)
  {
    forall i :: 0 <= i < |s| ==> !('A' <= s[i] <= 'Z')
  }

  /** `header_key(key)`, i.e. `key.lower()` on ASCII text. */
  function HeaderKey(key: string): (r: string)
    ensures |r| == |key| && IsLowerCase(r)
  {
    seq(|key|, i requires 0 <= i < |key| => LowerChar(key[i]))
  }

  /** Two names that differ only in letter case. */
  predicate SameIgnoringCase(a: string, b: string)
  {
    |a| == |b| && forall i :: 0 <= i < |a| ==> LowerChar(a[i]) == LowerChar(b[i])
  }

  lemma HeaderKeyIdempotent(key: string)
    ensures HeaderKey(HeaderKey(key)) == HeaderKey(key)
  {
  }

  /** A lower-case name is its own key. */
  lemma HeaderKeyOfLower(key: string)
    requires IsLowerCase(key)
    ensures HeaderKey(key) == key
  {
  }

  /** Two names have the same key exactly when they differ only in case. */
  lemma HeaderKeyCaseInsensitive(a: string, b: string)
    ensures HeaderKey(a) == HeaderKey(b) <==> SameIgnoringCase(a, b)
  {
    if HeaderKey(a) == HeaderKey(b) {
      forall i | 0 <= i < |a| ensures LowerChar(a[i]) == LowerChar(b[i]) {
        assert HeaderKey(a)[i] == HeaderKey(b)[i];
      }
    }
    if SameIgnoringCase(a, b) {
      forall i | 0 <= i < |a| ensures HeaderKey(a)[i] == HeaderKey(b)[i] {
        assert LowerChar(a[i]) == LowerChar(b[i]);
      }
      assert HeaderKey(a) == HeaderKey(b);
    }
  }

  /** What a `Headers` object's `_data` always satisfies: lower-case, distinct keys. */
  predicate Normalised(e: Entries)
  {
    DistinctKeys(e) && forall i :: 0 <= i < |e| ==> IsLowerCase(e[i].0)
  }

  /** The `for key, value in headers: _data[header_key(key)] = value` loop, starting from acc. */
  function InsertAll(acc: Entries, pairs: Entries): Entries
    decreases |pairs|
  {
    if pairs == [] then acc
    else
      var last := pairs[|pairs| - 1];
      Put(InsertAll(acc, pairs[..|pairs| - 1]), HeaderKey(last.0), last.1)
  }

  /** `Headers(pairs)` on the items of a mapping or a sequence of pairs. */
  function FromPairs(pairs: Entries): Entries
  {
    InsertAll([], pairs)
  }

  /** `self.get_merged(other)`: `Headers({**(other or {}), **self})`. */
  function Merged(self: Entries, other: Entries): Entries
  {
    FromPairs(other + self)
  }

  lemma PutNormalised(e: Entries, k: string, v: string)
    requires Normalised(e) && IsLowerCase(k)
    ensures Normalised(Put(e, k, v))
  {
    PutDistinct(e, k, v);
    PutShape(e, k, v);
  }

  lemma {:induction false} InsertAllNormalised(acc: Entries, pairs: Entries)
    requires Normalised(acc)
    ensures Normalised(InsertAll(acc, pairs))
    decreases |pairs|
  {
    if pairs != [] {
      InsertAllNormalised(acc, pairs[..|pairs| - 1]);
      var last := pairs[|pairs| - 1];
      PutNormalised(InsertAll(acc, pairs[..|pairs| - 1]), HeaderKey(last.0), last.1);
    }
  }

  /** Building from pairs gives lower-case, distinct keys. */
  lemma FromPairsNormalised(pairs: Entries)
    ensures Normalised(FromPairs(pairs))
  {
    InsertAllNormalised([], pairs);
  }

  /** Some pair's name lower-cases to k. */
  predicate MentionsKey(pairs: Entries, k: string)
  {
    exists i :: 0 <= i < |pairs| && HeaderKey(pairs[i].0) == k
  }

  /**
   * Every key of the input is present under its lower-cased form, with the
   * value of the LAST pair whose key has that form; nothing else is present.
   */
  lemma {:induction false} FromPairsLookup(pairs: Entries, k: string)
    ensures Lookup(FromPairs(pairs), k) ==
      if MentionsKey(pairs, k) then Some(pairs[LastWithKey(pairs, k)].1) else None
    decreases |pairs|
  {
    if pairs != [] {
      var init := pairs[..|pairs| - 1];
      var last := pairs[|pairs| - 1];
      FromPairsLookup(init, k);
      PutLookup(FromPairs(init), HeaderKey(last.0), last.1, k);
      if HeaderKey(last.0) != k {
        MentionsKeyInit(pairs, k);
      }
    }
  }

  /** When the last pair has another key, what is said about k is said by the earlier pairs. */
  lemma MentionsKeyInit(pairs: Entries, k: string)
    requires pairs != [] && HeaderKey(pairs[|pairs| - 1].0) != k
    ensures MentionsKey(pairs, k) == MentionsKey(pairs[..|pairs| - 1], k)
    ensures MentionsKey(pairs, k) ==> LastWithKey(pairs, k) == LastWithKey(pairs[..|pairs| - 1], k)
  {
    var init := pairs[..|pairs| - 1];
    if MentionsKey(pairs, k) {
      var i :| 0 <= i < |pairs| && HeaderKey(pairs[i].0) == k;
      assert i < |init| && HeaderKey(init[i].0) == k;
    } else {
      forall i | 0 <= i < |init| ensures HeaderKey(init[i].0) != k { assert init[i] == pairs[i]; }
    }
  }

  /** Index of the last pair whose key lower-cases to k. */
  function LastWithKey(pairs: Entries, k: string): (i: nat)
    requires MentionsKey(pairs, k)
    ensures i < |pairs| && HeaderKey(pairs[i].0) == k
    ensures forall j :: i < j < |pairs| ==> HeaderKey(pairs[j].0) != k
    decreases |pairs|
  {
    if HeaderKey(pairs[|pairs| - 1].0) == k then |pairs| - 1
    else
      var init := pairs[..|pairs| - 1];
      var i :| 0 <= i < |pairs| && HeaderKey(pairs[i].0) == k;
      assert i < |init| && HeaderKey(init[i].0) == k;
      LastWithKey(init, k)
  }

  lemma {:induction false} InsertAllConcat(acc: Entries, a: Entries, b: Entries)
    ensures InsertAll(acc, a + b) == InsertAll(InsertAll(acc, a), b)
    decreases |b|
  {
    if b != [] {
      assert (a + b)[..|a + b| - 1] == a + b[..|b| - 1];
      InsertAllConcat(acc, a, b[..|b| - 1]);
    } else {
      assert a + b == a;
    }
  }

  /** Rebuilding a normalised mapping from its own items gives it back unchanged. */
  lemma {:induction false} FromPairsOfNormalised(e: Entries)
    requires Normalised(e)
    ensures FromPairs(e) == e
    decreases |e|
  {
    if e != [] {
      var init := e[..|e| - 1];
      var last := e[|e| - 1];
      FromPairsOfNormalised(init);
      HeaderKeyOfLower(last.0);
      assert !HasKey(init, last.0);
    }
  }

  /** Inserting normalised pairs: their keys read their own values, other keys read acc. */
  lemma {:induction false} InsertAllNormalisedLookup(acc: Entries, s: Entries, k: string)
    requires Normalised(s)
    ensures Lookup(InsertAll(acc, s), k) == if HasKey(s, k) then Lookup(s, k) else Lookup(acc, k)
    decreases |s|
  {
    if s != [] {
      var init := s[..|s| - 1];
      var last := s[|s| - 1];
      InsertAllNormalisedLookup(acc, init, k);
      HeaderKeyOfLower(last.0);
      PutLookup(InsertAll(acc, init), last.0, last.1, k);
      if k == last.0 {
        FindDistinct(s, |s| - 1);
      } else {
        NormalisedInitLookup(s, k);
      }
    }
  }

  /** Dropping the last entry of a normalised mapping does not change what another key reads. */
  lemma NormalisedInitLookup(s: Entries, k: string)
    requires Normalised(s) && s != [] && k != s[|s| - 1].0
    ensures HasKey(s, k) == HasKey(s[..|s| - 1], k)
    ensures Lookup(s, k) == Lookup(s[..|s| - 1], k)
  {
    var init := s[..|s| - 1];
    if HasKey(s, k) {
      var i :| 0 <= i < |s| && s[i].0 == k;
      assert init[i] == s[i];
      var m := Find(init, k).value;
      FindDistinct(init, m);
      FindDistinct(s, m);
    } else {
      forall i | 0 <= i < |init| ensures init[i].0 != k { assert init[i] == s[i]; }
    }
  }

  /** Inserting never moves or renames the keys already present. */
  lemma {:induction false} InsertAllKeepsPrefix(acc: Entries, pairs: Entries)
    ensures |InsertAll(acc, pairs)| >= |acc|
    ensures KeysOf(InsertAll(acc, pairs))[..|acc|] == KeysOf(acc)
    decreases |pairs|
  {
    if pairs != [] {
      var init := pairs[..|pairs| - 1];
      var last := pairs[|pairs| - 1];
      InsertAllKeepsPrefix(acc, init);
      PutShape(InsertAll(acc, init), HeaderKey(last.0), last.1);
    }
  }

  /**
   * `get_merged` on two Headers: lower-case distinct keys; every key of either
   * operand is present, with self's value where self has it and other's value
   * otherwise; other's keys come first, in other's order.
   */
  lemma MergedSpec(self: Entries, other: Entries, k: string)
    requires Normalised(self) && Normalised(other)
    ensures Normalised(Merged(self, other))
    ensures HasKey(Merged(self, other), k) <==> HasKey(self, k) || HasKey(other, k)
    ensures Lookup(Merged(self, other), k) == if HasKey(self, k) then Lookup(self, k) else Lookup(other, k)
    ensures |Merged(self, other)| >= |other| && KeysOf(Merged(self, other))[..|other|] == KeysOf(other)
  {
    FromPairsNormalised(other + self);
    InsertAllConcat([], other, self);
    FromPairsOfNormalised(other);
    InsertAllNormalisedLookup(other, self, k);
    InsertAllKeepsPrefix(other, self);
    var m := Merged(self, other);
    assert HasKey(m, k) <==> Lookup(m, k).Some?;
    assert HasKey(self, k) <==> Lookup(self, k).Some?;
    assert HasKey(other, k) <==> Lookup(other, k).Some?;
  }

  /** With None or an empty argument, `get_merged` yields a copy equal to self. */
  lemma MergedWithEmpty(self: Entries)
    requires Normalised(self)
    ensures Merged(self, []) == self
  {
    assert [] + self == self;
    FromPairsOfNormalised(self);
  }

  /** After `h[k] = v`, reading any case variant of k gives v; other keys read as before. */
  lemma SetThenGet(e: Entries, k: string, v: string, k': string)
    ensures SameIgnoringCase(k, k') ==> Lookup(Put(e, HeaderKey(k), v), HeaderKey(k')) == Some(v)
    ensures !SameIgnoringCase(k, k') ==>
      Lookup(Put(e, HeaderKey(k), v), HeaderKey(k')) == Lookup(e, HeaderKey(k'))
  {
    HeaderKeyCaseInsensitive(k, k');
    PutLookup(e, HeaderKey(k), v, HeaderKey(k'));
  }

  /** The `Headers` object: `_data` holds the normalised entries in dict order. */
  class Headers {
    var entries: Entries

    ghost predicate Valid()
      reads this
    {
      Normalised(entries)
    }

    /** `Headers(pairs)`: one `_data[header_key(key)] = value` per pair, in order. */
    constructor (pairs: Entries)
      ensures Valid() && entries == FromPairs(pairs)
    {
      var acc: Entries := [];
      var i := 0;
      while i < |pairs|
        invariant 0 <= i <= |pairs|
        invariant acc == FromPairs(pairs[..i])
      {
        assert pairs[..i + 1][..i] == pairs[..i];
        acc := Put(acc, HeaderKey(pairs[i].0), pairs[i].1);
        i := i + 1;
      }
      assert pairs[..i] == pairs;
      FromPairsNormalised(pairs);
      entries := acc;
    }

    /** `h[key] = value`. */
    method Set(key: string, value: string)
      requires Valid()
      modifies this
      ensures Valid() && entries == Put(old(entries), HeaderKey(key), value)
    {
      PutNormalised(entries, HeaderKey(key), value);
      entries := Put(entries, HeaderKey(key), value);
    }

    /** `h[key]`: the value stored under any case variant of key, or KeyError. */
    method Get(key: string) returns (r: Result<string>)
      requires Valid()
      ensures r.Ok? <==> exists i :: 0 <= i < |entries| && SameIgnoringCase(entries[i].0, key)
      ensures r.Ok? ==> Lookup(entries, HeaderKey(key)) == Some(r.value)
      ensures r.Err? ==> r.error == KeyError(HeaderKey(key))
    {
      var k := HeaderKey(key);
      match Find(entries, k) {
        case Some(i) =>
          r := Ok(entries[i].1);
          HeaderKeyOfLower(entries[i].0);
          HeaderKeyCaseInsensitive(entries[i].0, key);
        case None =>
          r := Err(KeyError(k));
          forall i | 0 <= i < |entries| ensures !SameIgnoringCase(entries[i].0, key) {
            HeaderKeyOfLower(entries[i].0);
            HeaderKeyCaseInsensitive(entries[i].0, key);
          }
      }
    }

    /** `del h[key]`: removes the entry of any case variant of key, or raises KeyError and changes nothing. */
    method Delete(key: string) returns (r: Outcome)
      requires Valid()
      modifies this
      ensures Valid()
      ensures r == Done <==> HasKey(old(entries), HeaderKey(key))
      ensures r == Done ==> entries == Remove(old(entries), HeaderKey(key))
      ensures r != Done ==> r == Raised(KeyError(HeaderKey(key))) && entries == old(entries)
    {
      var k := HeaderKey(key);
      if HasKey(entries, k) {
        RemoveLookup(entries, k, k);
        var i := Find(entries, k).value;
        assert forall j :: 0 <= j < |Remove(entries, k)| ==>
          Remove(entries, k)[j] == if j < i then entries[j] else entries[j + 1];
        entries := Remove(entries, k);
        r := Done;
      } else {
        r := Raised(KeyError(k));
      }
    }

    /** `iter(h)`: the keys in dict order; they are lower-case and distinct. */
    function Keys(): (ks: seq<string>)
      reads this
      requires Valid()
      ensures |ks| == |entries|
      ensures forall i :: 0 <= i < |ks| ==> IsLowerCase(ks[i]) && ks[i] == entries[i].0
      ensures forall i, j :: 0 <= i < j < |ks| ==> ks[i] != ks[j]
    {
      KeysOf(entries)
    }

    /** `len(h)`: the number of distinct keys. */
    function Len(): (n: nat)
      reads this
      requires Valid()
      ensures n == |Keys()|
    {
      |entries|
    }

    /** `h.get_merged(other)`: a new object; neither operand changes. */
    method GetMerged(other: Headers?) returns (m: Headers)
      ensures fresh(m) && m.Valid()
      ensures m.entries == Merged(entries, if other == null then [] else other.entries)
    {
      var o: Entries := if other == null then [] else other.entries;
      m := new Headers(o + entries);
    }
  }

  lemma KeyOfContentType()
    ensures HeaderKey("Content-Type") == "content-type"
  {
  }

  lemma KeyOfConnection()
    ensures HeaderKey("connection") == "connection"
  {
  }

  lemma KeysOfConnectionVariants()
    ensures HeaderKey("ConNecTIOn") == "connection"
    ensures HeaderKey("connEctIon") == "connection"
  {
    assert HeaderKey("ConNecTIOn") == "connection";
  }

  /** The three states of the documented session. */
  lemma DocumentedStates()
    ensures FromPairs([("Content-Type", "mpa/mpa")]) == [("content-type", "mpa/mpa")]
    ensures Put([("content-type", "mpa/mpa")], "connection", "keep-alive")
         == [("content-type", "mpa/mpa"), ("connection", "keep-alive")]
    ensures Remove([("content-type", "mpa/mpa"), ("connection", "keep-alive")], "connection")
         == [("content-type", "mpa/mpa")]
  {
    KeyOfContentType();
    var two := [("content-type", "mpa/mpa"), ("connection", "keep-alive")];
    assert Find([("content-type", "mpa/mpa")], "connection") == None;
    assert Find(two, "connection") == Some(1) by {
      assert two[0].0 != "connection";
      assert two[1..][0].0 == "connection";
    }
    assert two[..1] + two[2..] == [("content-type", "mpa/mpa")];
  }

  /**
   * The example of the class documentation: after `h["connection"] = "keep-alive"`
   * both spellings read the value; after `del h["connEctIon"]` the lookup raises KeyError.
   */
  method DocumentedExample() returns (mixed: Result<string>, lower: Result<string>, afterDelete: Result<string>)
    ensures mixed == lower == Ok("keep-alive")
    ensures afterDelete == Err(KeyError("connection"))
  {
    KeyOfContentType();
    KeyOfConnection();
    KeysOfConnectionVariants();
    DocumentedStates();
    var h := new Headers([("Content-Type", "mpa/mpa")]);
    h.Set("connection", "keep-alive");
    FindDistinct(h.entries, 1);
    HeaderKeyCaseInsensitive("connection", "ConNecTIOn");
    mixed := h.Get("ConNecTIOn");
    HeaderKeyCaseInsensitive("connection", "connection");
    lower := h.Get("connection");
    var _ := h.Delete("connEctIon");
    afterDelete := h.Get("connection");
  }
}
