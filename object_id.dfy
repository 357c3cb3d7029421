/** The part of MongoDB's `ObjectId` the routes rely on: a string names a
    document id when it is 24 hexadecimal digits, in either case, and the id
    it names is written in lower case. */
module ObjectIds {
  import opened Common

  predicate IsHexDigit(c: char) {
    '0' <= c <= '9' || 'a' <= c <= 'f' || 'A' <= c <= 'F'
  }

  /** ASCII lower-casing, the only case change hexadecimal digits need. */
  function LowerAscii(c: char): (r: char)
    ensures 'A' <= c <= 'Z' ==> 'a' <= r <= 'z' && r as int - c as int == 32
    ensures !('A' <= c <= 'Z') ==> r == c
  {
    if 'A' <= c <= 'Z' then (c as int + 32) as char else c
  }

  function LowerAll(s: string): (r: string)
    ensures |r| == |s| && forall i :: 0 <= i < |s| ==> r[i] == LowerAscii(s[i])
  {
    if s == [] then [] else [LowerAscii(s[0])] + LowerAll(s[1..])
  }

  /** How an id is stored and printed: 24 lower-case hexadecimal digits. */
  predicate IsCanonical(k: string) {
    |k| == 24 && forall i :: 0 <= i < |k| ==> IsHexDigit(k[i]) && !('A' <= k[i] <= 'F')
  }

  predicate AllHex(s: string) {
    forall i :: 0 <= i < |s| ==> IsHexDigit(s[i])
  }

  /** `new ObjectId(s)`: the id, or None where the constructor throws. */
  function ParseObjectId(s: string): (r: Option<string>)
    ensures r.Some? <==> |s| == 24 && AllHex(s)
    ensures r.Some? ==> IsCanonical(r.value)
    ensures r.Some? ==> forall i :: 0 <= i < |s| ==> r.value[i] == LowerAscii(s[i])
  {
    if |s| == 24 && AllHex(s) then Some(LowerAll(s)) else None
  }

  /** A stored id parses to itself. */
  lemma CanonicalParsesToItself(k: string)
    requires IsCanonical(k)
    ensures ParseObjectId(k) == Some(k)
  {
    assert LowerAll(k) == k;
  }

  /** The case of the digits does not change which document is meant. */
  lemma ParseIgnoresCase(s: string, t: string)
    requires |s| == |t| && forall i :: 0 <= i < |s| ==> LowerAscii(s[i]) == LowerAscii(t[i])
    ensures ParseObjectId(s) == ParseObjectId(t)
  {
    assert forall i :: 0 <= i < |s| ==> (IsHexDigit(s[i]) <==> IsHexDigit(t[i])) by {
      forall i | 0 <= i < |s|
        ensures IsHexDigit(s[i]) <==> IsHexDigit(t[i])
      {
        assert IsHexDigit(s[i]) <==> IsHexDigit(LowerAscii(s[i]));
        assert IsHexDigit(t[i]) <==> IsHexDigit(LowerAscii(t[i]));
      }
    }
    assert LowerAll(s) == LowerAll(t);
  }
}
