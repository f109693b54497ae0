/** Shared vocabulary of the model: optional values, bytes, the integer clock,
    hexadecimal digits and the string tests the app performs on names and
    search text. */
module Common {

  /** Swift's `T?`. */
  datatype Option<T> = None | Some(value: T) {
    /** `self ?? fallback`. */
    function GetOr(fallback: T): T {
      if Some? then value else fallback
    }
  }

  /** One octet of a `Data` buffer or a UUID. */
  type Byte = b: int | 0 <= b < 256

  /** A point in time: `Date` values are modelled as whole seconds on one
      integer clock. */
  type Time = int

  // ---------------------------------------------------------------------
  // Hexadecimal digits
  // ---------------------------------------------------------------------

  /** The digit for a nibble, lower-case (`%hhx`) or upper-case (`uuidString`). */
  function HexDigit(n: int, upper: bool): (c: char)
    requires 0 <= n < 16
    ensures HexValue(c) == Some(n)
    ensures !upper ==> IsLowerHexDigit(c)
    ensures upper ==> IsUpperHexDigit(c)
  {
    if n < 10 then '0' + n as char
    else if upper then 'A' + (n - 10) as char
    else 'a' + (n - 10) as char
  }

  predicate IsLowerHexDigit(c: char) {
    ('0' <= c <= '9') || ('a' <= c <= 'f')
  }

  predicate IsUpperHexDigit(c: char) {
    ('0' <= c <= '9') || ('A' <= c <= 'F')
  }

  /** The value of a hexadecimal digit of either case; `None` for any other
      character. */
  function HexValue(c: char): (r: Option<int>)
    ensures r.Some? <==> IsLowerHexDigit(c) || IsUpperHexDigit(c)
    ensures r.Some? ==> 0 <= r.value < 16
  {
    if '0' <= c <= '9' then Some((c - '0') as int)
    else if 'a' <= c <= 'f' then Some((c - 'a') as int + 10)
    else if 'A' <= c <= 'F' then Some((c - 'A') as int + 10)
    else None
  }

  /** Two digits per byte, high nibble first. */
  function EncodeHex(bytes: seq<Byte>, upper: bool): (s: string)
    ensures |s| == 2 * |bytes|
  {
    if bytes == [] then ""
    else [HexDigit(bytes[0] / 16, upper), HexDigit(bytes[0] % 16, upper)]
         + EncodeHex(bytes[1..], upper)
  }

  /** Reads pairs of hexadecimal digits (either case) back into bytes; an odd
      length or a non-digit gives `None`. */
  function DecodeHex(s: string): (r: Option<seq<Byte>>)
    ensures r.Some? ==> 2 * |r.value| == |s|
  {
    if s == [] then Some([])
    else if |s| == 1 then None
    else
      match (HexValue(s[0]), HexValue(s[1]), DecodeHex(s[2..]))
      case (Some(hi), Some(lo), Some(rest)) => Some([(hi * 16 + lo) as Byte] + rest)
      case _ => None
  }

  lemma {:induction false} EncodeHexAt(bytes: seq<Byte>, upper: bool, i: nat)
    requires i < |bytes|
    ensures EncodeHex(bytes, upper)[2 * i] == HexDigit(bytes[i] / 16, upper)
    ensures EncodeHex(bytes, upper)[2 * i + 1] == HexDigit(bytes[i] % 16, upper)
  {
    if i > 0 {
      EncodeHexAt(bytes[1..], upper, i - 1);
    }
  }

  lemma {:induction false} DecodeEncodeHex(bytes: seq<Byte>, upper: bool)
    ensures DecodeHex(EncodeHex(bytes, upper)) == Some(bytes)
  {
    if bytes != [] {
      var s := EncodeHex(bytes, upper);
      assert s[2..] == EncodeHex(bytes[1..], upper);
      DecodeEncodeHex(bytes[1..], upper);
      assert [bytes[0]] + bytes[1..] == bytes;
    }
  }

  lemma {:induction false} EncodeHexAppend(a: seq<Byte>, b: seq<Byte>, upper: bool)
    ensures EncodeHex(a + b, upper) == EncodeHex(a, upper) + EncodeHex(b, upper)
  {
    if a != [] {
      assert (a + b)[0] == a[0] && (a + b)[1..] == a[1..] + b;
      EncodeHexAppend(a[1..], b, upper);
      var head := [HexDigit(a[0] / 16, upper), HexDigit(a[0] % 16, upper)];
      calc {
        EncodeHex(a + b, upper);
        head + EncodeHex(a[1..] + b, upper);
        head + (EncodeHex(a[1..], upper) + EncodeHex(b, upper));
        (head + EncodeHex(a[1..], upper)) + EncodeHex(b, upper);
      }
    } else {
      assert a + b == b;
    }
  }

  // ---------------------------------------------------------------------
  // Strings
  // ---------------------------------------------------------------------

  /** `lowercased()` restricted to the ASCII letters; every other character
      is kept. */
  function LowerChar(c: char): (r: char)
    ensures !('A' <= r <= 'Z')
  {
    if 'A' <= c <= 'Z' then c - 'A' + 'a' else c
  }

  function Lower(s: string): (r: string)
    ensures |r| == |s|
    ensures forall i :: 0 <= i < |s| ==> r[i] == LowerChar(s[i])
  {
    if s == [] then "" else [LowerChar(s[0])] + Lower(s[1..])
  }

  /** Lowering twice is lowering once, so a lowered name gives the same
      answers to every test made on `lowercased()`. */
  lemma LowerIdempotent(s: string)
    ensures Lower(Lower(s)) == Lower(s)
  {
    var l := Lower(s);
    assert forall i :: 0 <= i < |l| ==> Lower(l)[i] == l[i];
  }

  /** `pattern` occurs in `s` starting at index `i`. */
  ghost predicate OccursAt(s: string, pattern: string, i: int)
  {
    0 <= i && i + |pattern| <= |s| && s[i..i + |pattern|] == pattern
  }

  /** `String.contains(_:)` for a plain substring. */
  function Contains(s: string, pattern: string): (r: bool)
    ensures r <==> exists i :: OccursAt(s, pattern, i)
  {
    if pattern <= s then
      assert OccursAt(s, pattern, 0);
      true
    else if s == [] then
      assert forall i :: !OccursAt(s, pattern, i);
      false
    else
      var r := Contains(s[1..], pattern);
      assert forall i :: OccursAt(s[1..], pattern, i) <==> OccursAt(s, pattern, i + 1);
      assert !OccursAt(s, pattern, 0);
      assert forall i :: OccursAt(s, pattern, i) ==> i == 0 || OccursAt(s[1..], pattern, i - 1);
      r
  }

  /** Case-insensitive containment as the views use it, on the ASCII
      letters: both sides are lowered first. */
  function ContainsIgnoringCase(s: string, query: string): bool
  {
    Contains(Lower(s), Lower(query))
  }

  /** Concatenation regroups freely. */
  lemma AppendAssoc<T>(a: seq<T>, b: seq<T>, c: seq<T>)
    ensures a + (b + c) == (a + b) + c
  {
  }
}
