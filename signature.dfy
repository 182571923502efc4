/**
 * Webhook signature validation (src/component/utils.ts, validateTwilioSignature).
 * The signed text is the webhook URL followed by every POST parameter, in
 * ascending key order, as its key immediately followed by its value. The
 * expected header is the Base64 encoding of HMAC-SHA1 over the UTF-8 octets of
 * that text, keyed with the UTF-8 octets of the auth token. HMAC-SHA1 itself
 * (Web Crypto) is a parameter.
 */
module Signature {
  import opened Wrappers
  import opened Bytes
  import opened Strings
  import opened JsObject
  import Base64
  import Utf8

  /** HMAC-SHA1 as Web Crypto computes it: (key octets, message octets) to digest octets. */
  type Hmac = (seq<byte>, seq<byte>) -> seq<byte>

  /** The parameter keys in the order the signed text lists them. */
  function SortedKeys(params: Record): seq<string>
  {
    Sort(Keys(params))
  }

  /** `params[k]` for a key the object has. */
  function Value(params: Record, k: string): string
    requires k in Keys(params)
  {
    Get(params, k).value
  }

  /** Each listed key immediately followed by its value, in list order. */
  function Pieces(keys: seq<string>, params: Record): string
    requires forall i :: 0 <= i < |keys| ==> keys[i] in Keys(params)
  {
    if keys == [] then ""
    else
      var k := keys[|keys| - 1];
      Pieces(keys[..|keys| - 1], params) + k + Value(params, k)
  }

  /** Listing one more key appends that key and its value. */
  lemma PiecesAppend(prefix: string, keys: seq<string>, i: nat, params: Record)
    requires i < |keys|
    requires forall j :: 0 <= j < |keys| ==> keys[j] in Keys(params)
    ensures prefix + Pieces(keys[..i + 1], params) == prefix + Pieces(keys[..i], params) + keys[i] + Value(params, keys[i])
  {
    assert keys[..i + 1][..i] == keys[..i];
    var p := Pieces(keys[..i], params);
    assert Pieces(keys[..i + 1], params) == p + keys[i] + Value(params, keys[i]);
    assert prefix + (p + keys[i] + Value(params, keys[i])) == prefix + p + keys[i] + Value(params, keys[i]);
  }

  /** Every signed key is one of the record's keys. */
  lemma SortedKeysInParams(params: Record)
    ensures forall i :: 0 <= i < |SortedKeys(params)| ==> SortedKeys(params)[i] in Keys(params)
  {
    var keys := SortedKeys(params);
    forall i | 0 <= i < |keys| ensures keys[i] in Keys(params) {
      assert keys[i] in multiset(Keys(params));
    }
  }

  /** The text that is signed: the URL, then every parameter in ascending key order. */
  function CanonicalString(url: string, params: Record): (r: string)
    ensures |r| >= |url| && r[..|url|] == url
    ensures params == [] ==> r == url
  {
    SortedKeysInParams(params);
    url + Pieces(SortedKeys(params), params)
  }

  /** The keys of a record, each once, have one entry apiece in the multiset. */
  lemma {:induction false} DistinctKeysMultiset(e: Entries, k: string)
    requires DistinctKeys(e)
    ensures multiset(Keys(e))[k] == if k in Keys(e) then 1 else 0
  {
    if e != [] {
      var n := |e| - 1;
      DistinctKeysMultiset(e[..n], k);
      assert Keys(e) == Keys(e[..n]) + [e[n].0];
      if e[n].0 == k {
        assert k !in Keys(e[..n]);
      }
    }
  }

  /**
   * The signed keys are the record's keys, each exactly once, in strictly
   * ascending UTF-16 code-unit order.
   */
  lemma SortedKeysAscending(params: Record)
    ensures StrictlyAscending(SortedKeys(params))
    ensures forall k :: k in SortedKeys(params) <==> k in Keys(params)
    ensures |SortedKeys(params)| == |params|
  {
    var ks := SortedKeys(params);
    assert multiset(ks) == multiset(Keys(params));
    forall i, j | 0 <= i < j < |ks|
      ensures ks[i] != ks[j]
    {
      if ks[i] == ks[j] {
        assert multiset(ks[..i+1] + ks[i+1..])[ks[i]] >= 2 by {
          assert ks[i] in ks[..i+1];
          assert ks[j] in ks[i+1..];
        }
        assert ks == ks[..i+1] + ks[i+1..];
        DistinctKeysMultiset(params, ks[i]);
      }
    }
    SortedDistinctAscending(ks);
    forall k
      ensures k in ks <==> k in Keys(params)
    {
      assert k in ks <==> k in multiset(ks);
      assert k in Keys(params) <==> k in multiset(Keys(params));
    }
    assert |ks| == |multiset(ks)|;
  }

  /** Two records with the same key/value pairs agree on every key's value. */
  lemma SamePairsSameValues(p: Record, q: Record, k: string)
    requires forall kv :: kv in p <==> kv in q
    requires k in Keys(p)
    ensures k in Keys(q) && Value(p, k) == Value(q, k)
  {
    assert (k, Value(p, k)) in p;
  }

  lemma {:induction false} PiecesAgree(keys: seq<string>, p: Record, q: Record)
    requires forall kv :: kv in p <==> kv in q
    requires forall i :: 0 <= i < |keys| ==> keys[i] in Keys(p) && keys[i] in Keys(q)
    ensures Pieces(keys, p) == Pieces(keys, q)
  {
    if keys != [] {
      PiecesAgree(keys[..|keys| - 1], p, q);
      SamePairsSameValues(p, q, keys[|keys| - 1]);
    }
  }

  /**
   * The signed text depends only on the set of key/value pairs, not on the order
   * in which the parameters were added to the object.
   */
  lemma CanonicalStringIgnoresOrder(url: string, p: Record, q: Record)
    requires forall kv :: kv in p <==> kv in q
    ensures CanonicalString(url, p) == CanonicalString(url, q)
  {
    forall k
      ensures multiset(Keys(p))[k] == multiset(Keys(q))[k]
    {
      DistinctKeysMultiset(p, k);
      DistinctKeysMultiset(q, k);
      if k in Keys(p) { SamePairsSameValues(p, q, k); }
      if k in Keys(q) { SamePairsSameValues(q, p, k); }
    }
    assert multiset(Keys(p)) == multiset(Keys(q));
    SortIgnoresOrder(Keys(p), Keys(q));
    SortedKeysAscending(p);
    SortedKeysAscending(q);
    PiecesAgree(SortedKeys(p), p, q);
  }

  /**
   * The header value the provider sends: `btoa(String.fromCharCode(...digest))`.
   * It is the Base64 text of the HMAC digest, which decodes back to the digest.
   */
  function ExpectedSignature(hmac: Hmac, authToken: string, url: string, params: Record): (s: string)
    ensures Base64.Decode(s) == Some(hmac(Utf8.Encode(authToken), Utf8.Encode(CanonicalString(url, params))))
  {
    var digest := hmac(Utf8.Encode(authToken), Utf8.Encode(CanonicalString(url, params)));
    Base64.BtoaOfCharCodes(digest);
    Base64.DecodeEncode(digest);
    Base64.Btoa(Base64.FromCharCodes(digest))
  }

  /** Appends each listed key and its value to `prefix`, in list order. */
  method AppendPieces(prefix: string, keys: seq<string>, params: Record) returns (data: string)
    requires forall j :: 0 <= j < |keys| ==> keys[j] in Keys(params)
    ensures data == prefix + Pieces(keys, params)
  {
    data := prefix;
    for i := 0 to |keys|
      invariant data == prefix + Pieces(keys[..i], params)
    {
      PiecesAppend(prefix, keys, i, params);
      data := data + keys[i] + Value(params, keys[i]);
    }
    assert keys[..|keys|] == keys;
  }

  /** Builds the signed text by appending each sorted key and its value to the URL. */
  method DataToSign(url: string, params: Record) returns (data: string)
    ensures data == CanonicalString(url, params)
  {
    var sortedKeys := SortedKeys(params);
    SortedKeysInParams(params);
    data := AppendPieces(url, sortedKeys, params);
  }

  /**
   * validateTwilioSignature: true exactly when the header equals the expected
   * signature, so the expected signature itself is always accepted.
   */
  method ValidateTwilioSignature(hmac: Hmac, authToken: string, signature: string, url: string, params: Record)
    returns (valid: bool)
    ensures valid <==> signature == ExpectedSignature(hmac, authToken, url, params)
  {
    var dataToSign := DataToSign(url, params);
    var keyData := Utf8.Encode(authToken);
    var messageData := Utf8.Encode(dataToSign);
    var signatureBuffer := hmac(keyData, messageData);
    var expectedSignature := Base64.Btoa(Base64.FromCharCodes(signatureBuffer));
    valid := signature == expectedSignature;
  }
}
