/** The little string work the protocols depend on. */
module Text {

  function Digit(d: nat): char
    requires d < 10
  {
    "0123456789"[d]
  }

  /** Decimal rendering, as an f-string renders an int. */
  function Dec(n: nat): (s: string)
    ensures s != [] && (|s| == 1 <==> n < 10)
    ensures forall c :: c in s ==> c in "0123456789"
  {
    if n < 10 then [Digit(n)] else Dec(n / 10) + [Digit(n % 10)]
  }

  lemma {:induction false} DecInjective(a: nat, b: nat)
    requires Dec(a) == Dec(b)
    ensures a == b
    decreases a
  {
    var s := Dec(a);
    assert s[|s| - 1] == Digit(a % 10) && s[|s| - 1] == Digit(b % 10);
    if a >= 10 {
      assert Dec(a / 10) == s[..|s| - 1] == Dec(b / 10);
      DecInjective(a / 10, b / 10);
    }
  }

  /** The number a decimal text stands for. */
  function Read(s: string): int {
    if s == [] then 0 else 10 * Read(s[..|s| - 1]) + (s[|s| - 1] as int - '0' as int)
  }

  lemma {:induction false} DecReads(n: nat)
    ensures Read(Dec(n)) == n
    decreases n
  {
    if n < 10 {
      assert Dec(n)[..0] == [];
    } else {
      DecReads(n / 10);
      assert Dec(n)[..|Dec(n)| - 1] == Dec(n / 10);
    }
  }

  /** `bound`: a diagnostic text cut at `limit` characters, with a note of the cut. */
  function Bound(text: string, limit: nat): string {
    if |text| <= limit then text
    else text[..limit] + "...(+" + Dec(|text| - limit) + " chars truncated)"
  }

  /** A text within the limit is untouched; of a longer one the limit's worth is kept. */
  lemma BoundKeepsTheLimit(text: string, limit: nat)
    ensures |text| <= limit ==> Bound(text, limit) == text
    ensures |text| > limit ==> |Bound(text, limit)| > limit && Bound(text, limit)[..limit] == text[..limit]
  {
    if |text| > limit { assert |text[..limit]| == limit; }
  }

  /** Cutting never touches what a check on the first `limit` characters sees. */
  lemma BoundKeepsPrefix(text: string, limit: nat, prefix: string)
    requires |prefix| <= limit
    ensures prefix <= Bound(text, limit) <==> prefix <= text
  {
    if |text| > limit {
      assert Bound(text, limit)[..limit] == text[..limit];
      if prefix <= Bound(text, limit) {
        assert forall i :: 0 <= i < |prefix| ==> prefix[i] == Bound(text, limit)[i] == text[i];
      }
    }
  }

  /** Text up to the last colon and after it are determined, if the end has none. */
  lemma LastColonSplits(a: string, b: string, a': string, b': string)
    requires a + ":" + b == a' + ":" + b'
    requires ':' !in b && ':' !in b'
    ensures a == a' && b == b'
  {
    var s := a + ":" + b;
    assert s[|a|] == ':' && s[|a'|] == ':';
    assert forall i :: |a| < i < |s| ==> s[i] == b[i - |a| - 1];
    assert forall i :: |a'| < i < |s| ==> s[i] == b'[i - |a'| - 1];
    assert s[..|a|] == a && (a' + ":" + b')[..|a'|] == a';
    assert s[|a| + 1..] == b && (a' + ":" + b')[|a'| + 1..] == b';
  }
}
