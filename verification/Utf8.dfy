// UTF-8 as in section 4 of RFC 3629, and where text may be cut.
module Utf8 {

  type Byte = n: int | 0 <= n < 256

  predicate Tail(b: Byte) {
    0x80 <= b <= 0xBF
  }

  predicate TailsFrom(s: seq<Byte>, i: nat, n: nat) {
    n <= |s| && forall k :: i <= k < n ==> Tail(s[k])
  }

  // The length of the well-formed character that starts the text, or 0.
  function CharLength(s: seq<Byte>): (n: nat)
    ensures n <= |s| && n <= 4
    ensures forall k :: 1 <= k < n ==> Tail(s[k])
    ensures n > 0 ==> !Tail(s[0])
  {
    if |s| == 0 then 0
    else if s[0] <= 0x7F then 1
    else if 0xC2 <= s[0] <= 0xDF && TailsFrom(s, 1, 2) then 2
    else if 0xE0 <= s[0] <= 0xEF && TailsFrom(s, 1, 3)
            && (s[0] == 0xE0 ==> s[1] >= 0xA0) && (s[0] == 0xED ==> s[1] <= 0x9F) then 3
    else if 0xF0 <= s[0] <= 0xF4 && TailsFrom(s, 1, 4)
            && (s[0] == 0xF0 ==> s[1] >= 0x90) && (s[0] == 0xF4 ==> s[1] <= 0x8F) then 4
    else 0
  }

  predicate Valid(s: seq<Byte>) {
    |s| == 0 || (CharLength(s) > 0 && Valid(s[CharLength(s)..]))
  }

  predicate Boundary(s: seq<Byte>, i: nat) {
    i == 0 || i == |s| || (i < |s| && !Tail(s[i]))
  }

  lemma CharLengthOfPrefix(s: seq<Byte>, i: nat)
    requires CharLength(s) <= i <= |s| && CharLength(s) > 0
    ensures CharLength(s[..i]) == CharLength(s)
  {
  }

  lemma CharLengthOfConcat(a: seq<Byte>, b: seq<Byte>)
    requires CharLength(a) > 0
    ensures CharLength(a + b) == CharLength(a)
  {
  }

  // A boundary inside valid text does not fall inside its first character.
  lemma BoundaryAfterFirst(s: seq<Byte>, i: nat)
    requires Valid(s) && |s| > 0 && 0 < i <= |s| && Boundary(s, i)
    ensures CharLength(s) <= i && Boundary(s[CharLength(s)..], i - CharLength(s))
  {
    assert forall k :: 1 <= k < CharLength(s) ==> Tail(s[k]);
  }

  // Cutting valid text at a boundary leaves two valid texts.
  lemma {:induction false} BoundarySplitsValid(s: seq<Byte>, i: nat)
    requires Valid(s) && i <= |s| && Boundary(s, i)
    ensures Valid(s[..i]) && Valid(s[i..])
  {
    if i == 0 {
      assert s[0..] == s;
    } else {
      var n := CharLength(s);
      BoundaryAfterFirst(s, i);
      BoundarySplitsValid(s[n..], i - n);
      CharLengthOfPrefix(s, i);
      assert s[..i][n..] == s[n..][..i - n];
      assert s[i..] == s[n..][i - n..];
    }
  }

  lemma {:induction false} ValidConcat(a: seq<Byte>, b: seq<Byte>)
    requires Valid(a) && Valid(b)
    ensures Valid(a + b)
  {
    if |a| == 0 {
      assert a + b == b;
    } else {
      var n := CharLength(a);
      CharLengthOfConcat(a, b);
      ValidConcat(a[n..], b);
      assert (a + b)[n..] == a[n..] + b;
    }
  }

  // Around any position there is a boundary at most three bytes on, and one at
  // most three bytes back.
  lemma {:induction false} BoundaryNearby(s: seq<Byte>, j: nat) returns (back: nat, on: nat)
    requires Valid(s) && j <= |s|
    ensures back <= j <= on <= |s| && Boundary(s, back) && Boundary(s, on)
    ensures j - back <= 3 && on - j <= 3
  {
    if j == 0 || j == |s| {
      back, on := j, j;
    } else {
      var n := CharLength(s);
      if j < n {
        back, on := 0, n;
        assert n == |s| || Boundary(s, n) by {
          if n < |s| {
            assert CharLength(s[n..]) > 0;
            assert s[n..][0] == s[n];
          }
        }
      } else {
        back, on := BoundaryNearby(s[n..], j - n);
        assert n + on == |s| || on == 0 || s[n..][on] == s[n + on];
        assert n + back == |s| || back == 0 || s[n..][back] == s[n + back];
        if n < |s| {
          assert CharLength(s[n..]) > 0;
          assert s[n..][0] == s[n];
        }
        back, on := back + n, on + n;
      }
    }
  }

  // A cut leaves two well-formed texts only at a boundary.
  lemma BoundaryExactly(s: seq<Byte>, i: nat)
    requires Valid(s) && i <= |s|
    ensures Boundary(s, i) <==> Valid(s[..i]) && Valid(s[i..])
  {
    if Boundary(s, i) {
      BoundarySplitsValid(s, i);
    } else {
      assert s[i..][0] == s[i];
      assert CharLength(s[i..]) == 0;
    }
  }

  // ----- the characters a text encodes -----

  // A Unicode scalar value: a code point that is not a surrogate.
  type Scalar = c: int | 0 <= c < 0xD800 || 0xE000 <= c < 0x11_0000

  function Encoded(c: Scalar): seq<Byte> {
    if c < 0x80 then [c]
    else if c < 0x800 then [0xC0 + c / 0x40, 0x80 + c % 0x40]
    else if c < 0x1_0000 then [0xE0 + c / 0x1000, 0x80 + c / 0x40 % 0x40, 0x80 + c % 0x40]
    else [0xF0 + c / 0x4_0000, 0x80 + c / 0x1000 % 0x40, 0x80 + c / 0x40 % 0x40, 0x80 + c % 0x40]
  }

  function EncodedText(text: seq<Scalar>): seq<Byte> {
    if text == [] then [] else Encoded(text[0]) + EncodedText(text[1..])
  }

  lemma FirstCharacter(s: seq<Byte>) returns (c: Scalar)
    requires CharLength(s) > 0
    ensures Encoded(c) == s[..CharLength(s)]
  {
    var n := CharLength(s);
    if n == 1 {
      c := s[0];
    } else if n == 2 {
      var top, low: int := s[0] - 0xC0, s[1] - 0x80;
      c := top * 0x40 + low;
    } else if n == 3 {
      c := ThreeBytes(s[0], s[1], s[2]);
    } else {
      c := FourBytes(s[0], s[1], s[2], s[3]);
    }
  }

  lemma ThreeBytes(a: Byte, b: Byte, d: Byte) returns (c: Scalar)
    requires 0xE0 <= a <= 0xEF && Tail(b) && Tail(d) && (a == 0xE0 ==> b >= 0xA0) && (a == 0xED ==> b <= 0x9F)
    ensures Encoded(c) == [a, b, d]
  {
    var high := (a - 0xE0) * 0x40 + (b - 0x80);
    c := high * 0x40 + (d - 0x80);
    assert c / 0x40 == high && high % 0x40 == b - 0x80 && c / 0x1000 == a - 0xE0;
  }

  lemma FourBytes(a: Byte, b: Byte, d: Byte, e: Byte) returns (c: Scalar)
    requires 0xF0 <= a <= 0xF4 && Tail(b) && Tail(d) && Tail(e)
    requires (a == 0xF0 ==> b >= 0x90) && (a == 0xF4 ==> b <= 0x8F)
    ensures Encoded(c) == [a, b, d, e]
  {
    var top := (a - 0xF0) * 0x40 + (b - 0x80);
    var high := top * 0x40 + (d - 0x80);
    c := high * 0x40 + (e - 0x80);
    assert c / 0x40 == high && high % 0x40 == d - 0x80 && c / 0x1000 == top && top % 0x40 == b - 0x80;
    assert c / 0x4_0000 == a - 0xF0;
  }

  lemma CharacterIsRead(c: Scalar, rest: seq<Byte>)
    ensures CharLength(Encoded(c) + rest) == |Encoded(c)| > 0
  {
  }

  lemma {:induction false} ValidIsEncoded(s: seq<Byte>) returns (text: seq<Scalar>)
    requires Valid(s)
    ensures EncodedText(text) == s
  {
    if s == [] {
      text := [];
    } else {
      var n := CharLength(s);
      var c := FirstCharacter(s);
      var rest := ValidIsEncoded(s[n..]);
      text := [c] + rest;
      assert text[1..] == rest && s == s[..n] + s[n..];
    }
  }

  lemma {:induction false} EncodedIsValid(text: seq<Scalar>)
    ensures Valid(EncodedText(text))
  {
    if text != [] {
      var rest := EncodedText(text[1..]);
      CharacterIsRead(text[0], rest);
      EncodedIsValid(text[1..]);
      assert (Encoded(text[0]) + rest)[|Encoded(text[0])|..] == rest;
    }
  }

  // A text is well formed exactly when it is the encoding of some characters.
  lemma ValidExactlyWhenEncoded(s: seq<Byte>)
    ensures Valid(s) <==> exists text: seq<Scalar> :: EncodedText(text) == s
  {
    if Valid(s) {
      var text := ValidIsEncoded(s);
    }
    if text: seq<Scalar> :| EncodedText(text) == s {
      EncodedIsValid(text);
    }
  }
}
