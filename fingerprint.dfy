/**
 * Content fingerprints. Both curators build a key string by joining three
 * fields with "|" and take its md5 hex digest as the document id. The digest
 * is modelled as the constructor of a datatype, which is injective and says
 * nothing else about md5.
 */
module Fingerprint {

  /** `hashlib.md5(preimage.encode('utf-8')).hexdigest()`. */
  datatype Digest = Md5(preimage: string)

  /** The string `f"{a}|{b}|{c}"` that is hashed. */
  function KeyString(a: string, b: string, c: string): string {
    a + "|" + b + "|" + c
  }

  /** `_generate_content_hash(a, b, c)` of either curator. */
  function ContentHash(a: string, b: string, c: string): Digest {
    Md5(KeyString(a, b, c))
  }

  /** Metadata documents are keyed by `_generate_content_hash(name, "", "")`. */
  function MetadataKey(name: string): (d: Digest)
    ensures d == ContentHash(name, "", "")
    ensures d.preimage == name + "||"
  {
    ContentHash(name, "", "")
  }

  /** A hash is determined by the exact text of the three fields: no normalisation happens. */
  lemma HashIsExactText(a: string, b: string, c: string, a': string, b': string, c': string)
    ensures ContentHash(a, b, c) == ContentHash(a', b', c') <==> KeyString(a, b, c) == KeyString(a', b', c')
  {
  }

  /** Splitting `x + "|" + y` at its first separator recovers `x` when `x` has none. */
  lemma {:induction false} SplitAtFirstBar(x: string, y: string, x': string, y': string)
    requires '|' !in x && '|' !in x'
    requires x + "|" + y == x' + "|" + y'
    ensures x == x' && y == y'
  {
    var s := x + "|" + y;
    assert forall i :: 0 <= i < |x| ==> s[i] == x[i];
    assert forall i :: 0 <= i < |x'| ==> s[i] == (x' + "|" + y')[i] == x'[i];
    assert s[|x|] == '|' && s[|x'|] == '|';
    assert |x| == |x'|;
    assert x == s[..|x|] == x';
    assert y == s[|x| + 1..] == y';
  }

  /**
   * When the first two fields contain no "|", the key string, and therefore
   * the id, determines all three fields.
   */
  lemma {:induction false} KeyStringInjective(a: string, b: string, c: string, a': string, b': string, c': string)
    requires '|' !in a && '|' !in b && '|' !in a' && '|' !in b'
    requires ContentHash(a, b, c) == ContentHash(a', b', c')
    ensures a == a' && b == b' && c == c'
  {
    assert KeyString(a, b, c) == a + "|" + (b + "|" + c);
    assert KeyString(a', b', c') == a' + "|" + (b' + "|" + c');
    SplitAtFirstBar(a, b + "|" + c, a', b' + "|" + c');
    SplitAtFirstBar(b, c, b', c');
  }

  /** Without that condition two different triples share one id. */
  lemma SeparatorCollision()
    ensures ContentHash("a|b", "c", "") == ContentHash("a", "b|c", "")
  {
    assert KeyString("a|b", "c", "") == "a|b|c|" == KeyString("a", "b|c", "");
  }
}
