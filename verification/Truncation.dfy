/// Cutting a text at a number of bytes (loop_mod.rs, truncate_str), on UTF-8 as section 4 of RFC 3629 defines it.

module Truncation {

  newtype byte = b: int | 0 <= b < 256

  predicate IsTail(b: byte) {
    0x80 <= b <= 0xBF
  }

  /// The length of the character at the front: 0 if the bytes there are none.
  function CharLen(s: seq<byte>): (n: nat)
    ensures n <= 4 && n <= |s|
    ensures forall i | 0 < i < n :: IsTail(s[i])
    ensures n > 0 ==> !IsTail(s[0])
  {
    if s == [] then 0
    else if s[0] <= 0x7F then 1
    else if 0xC2 <= s[0] <= 0xDF then if |s| >= 2 && IsTail(s[1]) then 2 else 0
    else if 0xE0 <= s[0] <= 0xEF then
      if |s| >= 3 && SecondOfThree(s[0], s[1]) && IsTail(s[2]) then 3 else 0
    else if 0xF0 <= s[0] <= 0xF4 then
      if |s| >= 4 && SecondOfFour(s[0], s[1]) && IsTail(s[2]) && IsTail(s[3]) then 4 else 0
    else 0
  }

  predicate SecondOfThree(first: byte, second: byte) {
    if first == 0xE0 then 0xA0 <= second <= 0xBF
    else if first == 0xED then 0x80 <= second <= 0x9F
    else IsTail(second)
  }

  predicate SecondOfFour(first: byte, second: byte) {
    if first == 0xF0 then 0x90 <= second <= 0xBF
    else if first == 0xF4 then 0x80 <= second <= 0x8F
    else IsTail(second)
  }

  predicate ValidUtf8(s: seq<byte>) {
    s == [] || (CharLen(s) > 0 && ValidUtf8(s[CharLen(s)..]))
  }

  /// str::is_char_boundary.
  predicate Boundary(s: seq<byte>, i: nat) {
    i == 0 || i == |s| || (i < |s| && !IsTail(s[i]))
  }

  /// The character at the front is decided by its own bytes.
  lemma CharLenOfPrefix(s: seq<byte>, i: nat)
    requires i <= |s| && CharLen(s) > 0
    ensures CharLen(s[..i]) == if i >= CharLen(s) then CharLen(s) else 0
  {
  }

  /// In valid UTF-8 the boundaries are exactly the lengths of the valid prefixes.
  lemma {:induction false} BoundaryExactly(s: seq<byte>, i: nat)
    requires ValidUtf8(s) && i <= |s|
    ensures Boundary(s, i) <==> ValidUtf8(s[..i])
    decreases |s|
  {
    if i > 0 {
      var n := CharLen(s);
      CharLenOfPrefix(s, i);
      if i >= n {
        BoundaryExactly(s[n..], i - n);
        assert s[..i][n..] == s[n..][..i - n];
      }
    }
  }

  /// A boundary is never more than three bytes back.
  lemma {:induction false} BoundaryIsNear(s: seq<byte>, i: nat) returns (b: nat)
    requires ValidUtf8(s) && i <= |s|
    ensures b <= i <= b + 3 && Boundary(s, b)
    decreases |s|
  {
    if s == [] || i < CharLen(s) {
      b := 0;
    } else {
      var n := CharLen(s);
      b := BoundaryIsNear(s[n..], i - n);
      b := b + n;
    }
  }

  /// The longest prefix of at most maxLen bytes that is valid UTF-8, found in at most three steps back.
  method TruncateStr(s: seq<byte>, maxLen: nat) returns (t: seq<byte>, ghost steps: nat)
    requires ValidUtf8(s)
    ensures t <= s && |t| <= maxLen && ValidUtf8(t) && steps <= 3
    ensures forall e | |t| < e <= |s| && e <= maxLen :: !ValidUtf8(s[..e])
    ensures |s| <= maxLen ==> t == s
    ensures steps == if |s| <= maxLen then 0 else maxLen - |t|
  {
    steps := 0;
    if |s| <= maxLen {
      return s, 0;
    }
    ghost var near := BoundaryIsNear(s, maxLen);
    var end := maxLen;
    while !Boundary(s, end) && end > 0
      invariant near <= end <= maxLen && steps == maxLen - end
      invariant forall e | end < e <= maxLen :: !Boundary(s, e)
    {
      end := end - 1;
      steps := steps + 1;
    }
    t := s[..end];
    forall e | end <= e <= maxLen ensures Boundary(s, e) <==> ValidUtf8(s[..e]) {
      BoundaryExactly(s, e);
    }
  }
}
