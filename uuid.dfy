/** Foundation's `UUID`: sixteen bytes, written by `uuidString` as upper-case
    hexadecimal in the groups 8-4-4-4-12, and read back by
    `UUID(uuidString:)`, which accepts either case. Every record id in the app
    is one of these, and the sync layer stores ids as their strings. */
module Uuids {
  import opened Common

  type Uuid = b: seq<Byte> | |b| == 16 witness seq(16, _ => 0)

  /** The hyphen positions of the textual form. */
  predicate IsHyphenIndex(i: int) {
    i == 8 || i == 13 || i == 18 || i == 23
  }

  /** `uuid.uuidString`. */
  function UuidString(u: Uuid): (s: string)
    ensures |s| == 36
    ensures forall i :: 0 <= i < 36 ==> (s[i] == '-' <==> IsHyphenIndex(i))
    ensures forall i :: 0 <= i < 36 && !IsHyphenIndex(i) ==> IsUpperHexDigit(s[i])
  {
    var s := EncodeHex(u[0..4], true) + "-" + EncodeHex(u[4..6], true) + "-"
             + EncodeHex(u[6..8], true) + "-" + EncodeHex(u[8..10], true) + "-"
             + EncodeHex(u[10..16], true);
    DigitsAreUpperHex(u[0..4]);
    DigitsAreUpperHex(u[4..6]);
    DigitsAreUpperHex(u[6..8]);
    DigitsAreUpperHex(u[8..10]);
    DigitsAreUpperHex(u[10..16]);
    s
  }

  /** The 32 digits of a 36-character UUID string, hyphens removed. */
  function Digits(s: string): (d: string)
    requires |s| == 36
    ensures |d| == 32
  {
    s[0..8] + s[9..13] + s[14..18] + s[19..23] + s[24..36]
  }

  /** `UUID(uuidString:)`: exactly 36 characters, hyphens at 8, 13, 18 and 23,
      hexadecimal digits of either case everywhere else. */
  function ParseUuid(s: string): (r: Option<Uuid>)
    ensures r.Some? ==> |s| == 36 && forall i :: 0 <= i < 36 ==> (s[i] == '-' <==> IsHyphenIndex(i))
  {
    if |s| == 36 && s[8] == '-' && s[13] == '-' && s[18] == '-' && s[23] == '-' then
      match DecodeHex(Digits(s))
      case Some(bytes) =>
        DigitsHaveNoHyphen(s, bytes);
        var id: Uuid := bytes;
        Some(id)
      case None => None
    else None
  }

  lemma DigitsAreUpperHex(b: seq<Byte>)
    ensures forall i :: 0 <= i < |EncodeHex(b, true)| ==> IsUpperHexDigit(EncodeHex(b, true)[i])
  {
    forall i | 0 <= i < |EncodeHex(b, true)|
      ensures IsUpperHexDigit(EncodeHex(b, true)[i])
    {
      EncodeHexAt(b, true, i / 2);
    }
  }

  lemma DecodedDigitsAreHex(s: string)
    requires DecodeHex(s).Some?
    ensures forall i :: 0 <= i < |s| ==> HexValue(s[i]).Some?
    decreases |s|
  {
    if |s| >= 2 {
      DecodedDigitsAreHex(s[2..]);
      assert forall i :: 2 <= i < |s| ==> s[i] == s[2..][i - 2];
    }
  }

  lemma DigitsHaveNoHyphen(s: string, bytes: seq<Byte>)
    requires |s| == 36 && s[8] == '-' && s[13] == '-' && s[18] == '-' && s[23] == '-'
    requires DecodeHex(Digits(s)) == Some(bytes)
    ensures |bytes| == 16
    ensures forall i :: 0 <= i < 36 ==> (s[i] == '-' <==> IsHyphenIndex(i))
  {
    var d := Digits(s);
    DecodedDigitsAreHex(d);
    forall i | 0 <= i < 36 && !IsHyphenIndex(i)
      ensures s[i] != '-'
    {
      var j := if i < 8 then i else if i < 13 then i - 1 else if i < 18 then i - 2
               else if i < 23 then i - 3 else i - 4;
      assert d[j] == s[i];
      assert HexValue(d[j]).Some?;
    }
  }

  /** Reading back the string of a UUID gives the same UUID: ids survive the
      trip through a remote document. */
  lemma {:induction false} ParseUuidString(u: Uuid)
    ensures ParseUuid(UuidString(u)) == Some(u)
  {
    var s := UuidString(u);
    assert IsHyphenIndex(8) && IsHyphenIndex(13) && IsHyphenIndex(18) && IsHyphenIndex(23);
    DigitsOfUuidString(u);
    EncodeInGroups(u);
    DecodeEncodeHex(u, true);
  }

  /** The digits of a UUID string are the five groups' digits. */
  lemma DigitsOfUuidString(u: Uuid)
    ensures Digits(UuidString(u)) == EncodeHex(u[0..4], true) + EncodeHex(u[4..6], true) + EncodeHex(u[6..8], true)
                                     + EncodeHex(u[8..10], true) + EncodeHex(u[10..16], true)
  {
    DigitsOfGroups(EncodeHex(u[0..4], true), EncodeHex(u[4..6], true), EncodeHex(u[6..8], true),
                   EncodeHex(u[8..10], true), EncodeHex(u[10..16], true));
  }

  /** Removing the four hyphens of a 8-4-4-4-12 string leaves its groups. */
  lemma DigitsOfGroups(a: string, b: string, c: string, d: string, e: string)
    requires |a| == 8 && |b| == 4 && |c| == 4 && |d| == 4 && |e| == 12
    ensures Digits(a + "-" + b + "-" + c + "-" + d + "-" + e) == a + b + c + d + e
  {
    var s := a + "-" + b + "-" + c + "-" + d + "-" + e;
    assert s[0..8] == a;
    assert s[9..13] == b;
    assert s[14..18] == c;
    assert s[19..23] == d;
    assert s[24..36] == e;
  }

  /** Encoding the five groups one after the other encodes the whole UUID. */
  lemma EncodeInGroups(u: Uuid)
    ensures EncodeHex(u[0..4], true) + EncodeHex(u[4..6], true) + EncodeHex(u[6..8], true)
            + EncodeHex(u[8..10], true) + EncodeHex(u[10..16], true) == EncodeHex(u, true)
  {
    EncodeJoin(u, 0, 4, 6);
    EncodeJoin(u, 0, 6, 8);
    EncodeJoin(u, 0, 8, 10);
    EncodeJoin(u, 0, 10, 16);
    assert u[0..16] == u;
  }

  /** Encoding two adjacent slices one after the other encodes their union. */
  lemma EncodeJoin(u: seq<Byte>, i: nat, j: nat, k: nat)
    requires i <= j <= k <= |u|
    ensures EncodeHex(u[i..j], true) + EncodeHex(u[j..k], true) == EncodeHex(u[i..k], true)
  {
    EncodeHexAppend(u[i..j], u[j..k], true);
    assert u[i..j] + u[j..k] == u[i..k];
  }

  /** Distinct ids have distinct strings, so a document key names one record. */
  lemma UuidStringInjective(u: Uuid, v: Uuid)
    requires UuidString(u) == UuidString(v)
    ensures u == v
  {
    ParseUuidString(u);
    ParseUuidString(v);
  }
}
