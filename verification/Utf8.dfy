/** UTF-8 as defined by sections 3 and 4 of RFC 3629, and the three questions the
    line splitter asks of it (RuneStart, DecodeRune and FullRune of unicode/utf8). */
module Utf8 {

  type byte = b: int | 0 <= b < 256

  const UTFMax := 4

  predicate Tail(b: byte) {
    0x80 <= b < 0xC0
  }

  /** The byte can begin a character. */
  predicate RuneStart(b: byte) {
    !Tail(b)
  }

  /** The number of bytes a character with this first byte has, 0 if there is none. */
  function Lead(b: byte): nat {
    if b < 0x80 then 1
    else if 0xC2 <= b <= 0xDF then 2
    else if 0xE0 <= b <= 0xEF then 3
    else if 0xF0 <= b <= 0xF4 then 4
    else 0
  }

  /** The second byte is in the range its first byte allows. */
  predicate SecondOk(lead: byte, b: byte) {
    Tail(b)
    && (lead == 0xE0 ==> 0xA0 <= b)
    && (lead == 0xED ==> b <= 0x9F)
    && (lead == 0xF0 ==> 0x90 <= b)
    && (lead == 0xF4 ==> b <= 0x8F)
  }

  /** Length of the well-formed character s begins with, 0 if there is none. */
  function CharLen(s: seq<byte>): nat {
    if s == [] then 0
    else
      var n := Lead(s[0]);
      if n == 0 || |s| < n then 0
      else if n >= 2 && !SecondOk(s[0], s[1]) then 0
      else if n >= 3 && !Tail(s[2]) then 0
      else if n >= 4 && !Tail(s[3]) then 0
      else n
  }

  /** The size DecodeRune reports: 1 for an invalid or incomplete encoding. */
  function DecodeSize(s: seq<byte>): nat {
    if s == [] then 0 else if CharLen(s) > 0 then CharLen(s) else 1
  }

  /** Whether s begins with a complete encoding; an encoding that is already known
      to be invalid is complete. */
  predicate FullRune(s: seq<byte>) {
    s != []
    && (|s| >= Lead(s[0])
        || (|s| > 1 && !SecondOk(s[0], s[1]))
        || (|s| > 2 && !Tail(s[2])))
  }

  predicate Valid(s: seq<byte>) {
    s == [] || (CharLen(s) > 0 && Valid(s[CharLen(s)..]))
  }

  /** s can be divided at p without breaking a character. */
  predicate Boundary(s: seq<byte>, p: int) {
    0 <= p <= |s| && Valid(s[..p]) && Valid(s[p..])
  }

  lemma CharLenLocal(s: seq<byte>, t: seq<byte>)
    requires CharLen(s) > 0 && CharLen(s) <= |t| && t[..CharLen(s)] == s[..CharLen(s)]
    ensures CharLen(t) == CharLen(s)
  {
    var n := CharLen(s);
    assert forall i :: 0 <= i < n ==> t[i] == s[i] by {
      forall i | 0 <= i < n ensures t[i] == s[i] {
        assert t[..n][i] == s[..n][i];
      }
    }
  }

  /** Within valid text the boundaries are exactly the positions of start bytes. */
  lemma {:induction false} BoundaryIsStart(s: seq<byte>, p: nat)
    requires Valid(s) && p < |s|
    ensures Boundary(s, p) <==> RuneStart(s[p])
    ensures Valid(s[..p]) <==> RuneStart(s[p])
    decreases |s|
  {
    var n := CharLen(s);
    if p == 0 {
      assert s[0..] == s;
    } else if p < n {
      assert CharLen(s[..p]) == 0;
    } else {
      var rest := s[n..];
      assert rest[p - n] == s[p];
      BoundaryIsStart(rest, p - n);
      assert s[..p][n..] == rest[..p - n];
      assert rest[p - n..] == s[p..];
      CharLenLocal(s, s[..p]);
    }
  }

  lemma {:induction false} ValidConcat(s: seq<byte>, t: seq<byte>)
    requires Valid(s) && Valid(t)
    ensures Valid(s + t)
    decreases |s|
  {
    if s == [] {
      assert s + t == t;
    } else {
      var n := CharLen(s);
      CharLenLocal(s, s + t);
      assert (s + t)[n..] == s[n..] + t;
      ValidConcat(s[n..], t);
    }
  }

  /** The byte at p belongs to the character that starts at q. */
  ghost predicate Covers(s: seq<byte>, q: int, p: int) {
    && 0 <= q <= p < |s| && p < q + UTFMax
    && RuneStart(s[q])
    && p < q + CharLen(s[q..])
    && (forall k :: q < k <= p ==> Tail(s[k]))
  }

  lemma CoversShift(s: seq<byte>, n: nat, q: int, p: int)
    requires n <= |s| && Covers(s[n..], q, p)
    ensures Covers(s, q + n, p + n)
  {
    var rest := s[n..];
    assert rest[q..] == s[q + n..];
    assert forall k :: 0 <= k < |rest| ==> s[k + n] == rest[k];
    forall k | q + n < k <= p + n ensures Tail(s[k]) {
      assert s[k] == rest[k - n];
    }
  }

  /** Every byte of valid text belongs to a character of at most UTFMax bytes. */
  lemma {:induction false} StartNearby(s: seq<byte>, p: nat) returns (q: int)
    requires Valid(s) && p < |s|
    ensures Covers(s, q, p)
    decreases |s|
  {
    var n := CharLen(s);
    if p < n {
      assert s[0..] == s;
      q := 0;
    } else {
      var inner := StartNearby(s[n..], p - n);
      CoversShift(s, n, inner, p - n);
      q := inner + n;
    }
  }

  /** A proper prefix of a character is not a full rune and decodes to size 1. */
  lemma PartialCharacter(s: seq<byte>, cut: nat)
    requires CharLen(s) > 0 && 0 < cut < CharLen(s)
    ensures !FullRune(s[..cut]) && DecodeSize(s[..cut]) == 1
  {
  }
}
