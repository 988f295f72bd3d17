/** Texts made of characters, for any way of telling how long the first character is. */
module Characters {
  import opened Bytes
  import opened Sequences

  type Measure = seq<Byte> -> nat

  predicate Continues(b: Byte) {
    0x80 <= b < 0xC0
  }

  /** A text is empty, or a character and a text. */
  predicate Chars(f: Measure, s: seq<Byte>)
    decreases |s|
  {
    s == [] || (0 < f(s) <= |s| && Chars(f, s[f(s)..]))
  }

  /** How many bytes at the start are whole characters. */
  function UpTo(f: Measure, s: seq<Byte>): (n: nat)
    ensures n <= |s|
    decreases |s|
  {
    if 0 < f(s) <= |s| then f(s) + UpTo(f, s[f(s)..]) else 0
  }

  /** A position that is not inside a character, by the look of the byte there. */
  predicate Boundary(s: seq<Byte>, i: nat) {
    i == 0 || i == |s| || (i < |s| && !Continues(s[i]))
  }

  predicate IsChar(f: Measure, c: seq<Byte>) {
    0 < |c| <= 4 && f(c) == |c| && !Continues(c[0]) && forall i :: 1 <= i < |c| ==> Continues(c[i])
  }

  // ---- What a measure of characters must be like ----

  predicate Starts(f: Measure, s: seq<Byte>) {
    0 < f(s) <= |s| ==> IsChar(f, s[..f(s)])
  }

  predicate Stands(f: Measure, c: seq<Byte>, rest: seq<Byte>) {
    IsChar(f, c) ==> f(c + rest) == |c|
  }

  predicate Parts(f: Measure, breaks: seq<Byte> -> bool, c: seq<Byte>, n: nat) {
    IsChar(f, c) && 0 < n < |c| ==> f(c[..n]) == 0 && breaks(c[..n])
  }

  /** A measured character is one; one stays one whatever follows; a part of one is not. */
  ghost predicate Lawful(f: Measure, breaks: seq<Byte> -> bool) {
    && (forall s: seq<Byte> :: Starts(f, s))
    && (forall c: seq<Byte>, rest: seq<Byte> :: Stands(f, c, rest))
    && (forall c: seq<Byte>, n: nat :: Parts(f, breaks, c, n))
    && f([]) == 0
  }

  // ---- Taking texts apart ----

  lemma SplitChars(f: Measure, breaks: seq<Byte> -> bool, s: seq<Byte>) returns (c: seq<Byte>, rest: seq<Byte>)
    requires Lawful(f, breaks) && Chars(f, s) && s != []
    ensures IsChar(f, c) && Chars(f, rest) && s == c + rest && |rest| < |s|
  {
    assert Starts(f, s);
    c, rest := s[..f(s)], s[f(s)..];
  }

  lemma ConsChars(f: Measure, breaks: seq<Byte> -> bool, c: seq<Byte>, rest: seq<Byte>)
    requires Lawful(f, breaks) && IsChar(f, c)
    ensures Chars(f, c + rest) <==> Chars(f, rest)
    ensures UpTo(f, c + rest) == |c| + UpTo(f, rest)
  {
    assert Stands(f, c, rest);
    assert (c + rest)[|c|..] == rest;
  }

  lemma {:induction false} ConcatChars(f: Measure, breaks: seq<Byte> -> bool, a: seq<Byte>, b: seq<Byte>)
    requires Lawful(f, breaks) && Chars(f, a)
    ensures Chars(f, a + b) <==> Chars(f, b)
    decreases |a|
  {
    if a == [] {
      assert a + b == b;
    } else {
      var c, rest := SplitChars(f, breaks, a);
      ConcatChars(f, breaks, rest, b);
      ConsChars(f, breaks, c, rest + b);
      Associative(c, rest, b);
    }
  }

  lemma StartOfChars(f: Measure, breaks: seq<Byte> -> bool, s: seq<Byte>)
    requires Lawful(f, breaks) && Chars(f, s) && s != []
    ensures !Continues(s[0])
  {
    var c, rest := SplitChars(f, breaks, s);
    assert s[0] == c[0];
  }

  /** Behind a whole character positions look as they do by themselves; inside it, none is
      a boundary. */
  lemma BoundaryBehind(f: Measure, breaks: seq<Byte> -> bool, c: seq<Byte>, rest: seq<Byte>, i: nat)
    requires Lawful(f, breaks) && IsChar(f, c) && Chars(f, rest) && i <= |c| + |rest|
    ensures i >= |c| ==> (Boundary(c + rest, i) <==> Boundary(rest, i - |c|))
    ensures 0 < i < |c| ==> !Boundary(c + rest, i)
  {
    if rest != [] {
      StartOfChars(f, breaks, rest);
    }
  }

  lemma CutStep(f: Measure, breaks: seq<Byte> -> bool, c: seq<Byte>, rest: seq<Byte>, j: nat)
    requires Lawful(f, breaks) && IsChar(f, c) && j <= |rest| && Chars(f, rest[..j]) && Chars(f, rest[j..])
    ensures Chars(f, (c + rest)[..|c| + j]) && Chars(f, (c + rest)[|c| + j..])
  {
    assert (c + rest)[..|c| + j] == c + rest[..j] && (c + rest)[|c| + j..] == rest[j..];
    ConsChars(f, breaks, c, rest[..j]);
  }

  lemma {:induction false} BoundaryCutsChars(f: Measure, breaks: seq<Byte> -> bool, s: seq<Byte>, i: nat)
    requires Lawful(f, breaks) && Chars(f, s) && i <= |s| && Boundary(s, i)
    ensures Chars(f, s[..i]) && Chars(f, s[i..])
    decreases |s|
  {
    if i == 0 {
      assert s[..0] == [] && s[0..] == s;
    } else {
      var c, rest := SplitChars(f, breaks, s);
      BoundaryBehind(f, breaks, c, rest, i);
      BoundaryCutsChars(f, breaks, rest, i - |c|);
      CutStep(f, breaks, c, rest, i - |c|);
      assert |c| + (i - |c|) == i;
    }
  }

  lemma CutCharsAreBoundaries(f: Measure, breaks: seq<Byte> -> bool, s: seq<Byte>, i: nat)
    requires Lawful(f, breaks) && i <= |s| && Chars(f, s[i..])
    ensures Boundary(s, i)
  {
    if i < |s| {
      StartOfChars(f, breaks, s[i..]);
      assert s[i] == s[i..][0];
    }
  }

  lemma {:induction false} BoundaryNearby(f: Measure, breaks: seq<Byte> -> bool, s: seq<Byte>, i: nat) returns (j: nat)
    requires Lawful(f, breaks) && Chars(f, s) && i <= |s|
    ensures j <= i <= j + 3 && Boundary(s, j)
    decreases |s|
  {
    j := 0;
    if i > 0 {
      var c, rest := SplitChars(f, breaks, s);
      if i >= |c| {
        var k := BoundaryNearby(f, breaks, rest, i - |c|);
        BoundaryBehind(f, breaks, c, rest, |c| + k);
        j := |c| + k;
      }
    }
  }

  // ---- Decoding the first bytes of a text ----

  /** Whole characters up to the last boundary, and behind it, if anything, the start of a
      character. */
  predicate DecodesTo(breaks: seq<Byte> -> bool, s: seq<Byte>, n: nat, v: nat) {
    && v <= n <= |s| && Boundary(s, v) && (forall i :: v < i <= n ==> !Boundary(s, i))
    && (v < n ==> n < |s| && breaks(s[v..n]))
  }

  lemma DecodesInside(f: Measure, breaks: seq<Byte> -> bool, c: seq<Byte>, rest: seq<Byte>, n: nat)
    requires Lawful(f, breaks) && IsChar(f, c) && Chars(f, rest) && n < |c|
    ensures DecodesTo(breaks, c + rest, n, 0) && UpTo(f, (c + rest)[..n]) == 0
  {
    assert (c + rest)[..n] == c[..n] == (c + rest)[0..n];
    assert Parts(f, breaks, c, n);
    forall i | 0 < i <= n ensures !Boundary(c + rest, i) {
      BoundaryBehind(f, breaks, c, rest, i);
    }
    assert n == 0 ==> c[..n] == [];
  }

  lemma DecodesBehind(f: Measure, breaks: seq<Byte> -> bool, c: seq<Byte>, rest: seq<Byte>, m: nat, v: nat)
    requires Lawful(f, breaks) && IsChar(f, c) && Chars(f, rest) && m <= |rest|
    requires v == UpTo(f, rest[..m]) && DecodesTo(breaks, rest, m, v)
    ensures DecodesTo(breaks, c + rest, |c| + m, |c| + v) && UpTo(f, (c + rest)[..|c| + m]) == |c| + v
  {
    assert (c + rest)[..|c| + m] == c + rest[..m] && (c + rest)[|c| + v..|c| + m] == rest[v..m];
    ConsChars(f, breaks, c, rest[..m]);
    BoundaryBehind(f, breaks, c, rest, |c| + v);
    forall i | |c| + v < i <= |c| + m ensures !Boundary(c + rest, i) {
      BoundaryBehind(f, breaks, c, rest, i);
    }
  }

  lemma {:induction false} FirstBytesDecode(f: Measure, breaks: seq<Byte> -> bool, s: seq<Byte>, n: nat)
    requires Lawful(f, breaks) && Chars(f, s) && n <= |s|
    ensures DecodesTo(breaks, s, n, UpTo(f, s[..n]))
    decreases |s|
  {
    if s == [] {
      assert s[..n] == [];
    } else {
      var c, rest := SplitChars(f, breaks, s);
      if n < |c| {
        DecodesInside(f, breaks, c, rest, n);
      } else {
        FirstBytesDecode(f, breaks, rest, n - |c|);
        DecodesBehind(f, breaks, c, rest, n - |c|, UpTo(f, rest[..n - |c|]));
      }
    }
  }

  lemma {:induction false} UpToIsChars(f: Measure, breaks: seq<Byte> -> bool, s: seq<Byte>)
    requires Lawful(f, breaks)
    ensures Chars(f, s[..UpTo(f, s)])
    ensures UpTo(f, s) == |s| <==> Chars(f, s)
    decreases |s|
  {
    if 0 < f(s) <= |s| {
      assert Starts(f, s);
      var c, rest := s[..f(s)], s[f(s)..];
      UpToIsChars(f, breaks, rest);
      assert s[..UpTo(f, s)] == c + rest[..UpTo(f, rest)] && s == c + rest;
      ConsChars(f, breaks, c, rest[..UpTo(f, rest)]);
    } else {
      assert s[..0] == [];
    }
  }
}

/** Well-formed UTF-8 (section 4 of RFC 3629) and where it may be cut. */
module Utf8 {
  import opened Bytes
  import opened Characters

  /** How many bytes a character with this first byte has; 0 if none starts so. */
  function Width(lead: Byte): (n: nat)
    ensures n <= 4
  {
    if lead < 0x80 then 1
    else if 0xC2 <= lead < 0xE0 then 2
    else if 0xE0 <= lead < 0xF0 then 3
    else if 0xF0 <= lead < 0xF5 then 4
    else 0
  }

  /** What may follow a first byte: over-long forms, surrogates and values above U+10FFFF
      are excluded by the second byte. */
  predicate Follows(lead: Byte, second: Byte) {
    && Continues(second)
    && (lead == 0xE0 ==> second >= 0xA0) && (lead == 0xED ==> second < 0xA0)
    && (lead == 0xF0 ==> second >= 0x90) && (lead == 0xF4 ==> second < 0x90)
  }

  /** The first bytes of a character, possibly not all of them. */
  predicate Begins(s: seq<Byte>, n: nat)
    requires 0 < n <= |s|
  {
    && n <= Width(s[0])
    && (n >= 2 ==> Follows(s[0], s[1]))
    && (n >= 3 ==> Continues(s[2]))
    && (n >= 4 ==> Continues(s[3]))
  }

  /** The length of the character a text starts with; 0 if it does not start with one. */
  function CharLength(s: seq<Byte>): (n: nat)
    ensures n <= |s| && n <= 4
  {
    if s == [] || Width(s[0]) > |s| || Width(s[0]) == 0 || !Begins(s, Width(s[0])) then 0 else Width(s[0])
  }

  predicate Valid(s: seq<Byte>) {
    Chars(CharLength, s)
  }

  function ValidUpTo(s: seq<Byte>): (n: nat)
    ensures n <= |s|
  {
    UpTo(CharLength, s)
  }

  /** The bytes break off inside a character that may still be completed. */
  predicate BreaksOff(s: seq<Byte>) {
    s != [] && |s| < Width(s[0]) && Begins(s, |s|)
  }

  lemma MeasureIsLawful()
    ensures Lawful(CharLength, BreaksOff)
  {
    forall s: seq<Byte> ensures Starts(CharLength, s) {
    }
    forall c: seq<Byte>, rest: seq<Byte> ensures Stands(CharLength, c, rest) {
    }
    forall c: seq<Byte>, n: nat ensures Parts(CharLength, BreaksOff, c, n) {
    }
  }

  lemma ValidConcat(a: seq<Byte>, b: seq<Byte>)
    requires Valid(a)
    ensures Valid(a + b) <==> Valid(b)
  {
    MeasureIsLawful();
    ConcatChars(CharLength, BreaksOff, a, b);
  }

  /** Self-synchronisation: any position of a valid text that does not look like the inside
      of a character cuts it into two valid texts. */
  lemma BoundaryCuts(s: seq<Byte>, i: nat)
    requires Valid(s) && i <= |s| && Boundary(s, i)
    ensures Valid(s[..i]) && Valid(s[i..])
  {
    MeasureIsLawful();
    BoundaryCutsChars(CharLength, BreaksOff, s, i);
  }

  /** And only such positions do. */
  lemma CutsAreBoundaries(s: seq<Byte>, i: nat)
    requires i <= |s| && Valid(s[i..])
    ensures Boundary(s, i)
  {
    MeasureIsLawful();
    CutCharsAreBoundaries(CharLength, BreaksOff, s, i);
  }

  /** Four bytes on end cannot all be inside characters. */
  lemma BoundaryNear(s: seq<Byte>, i: nat) returns (j: nat)
    requires Valid(s) && i <= |s|
    ensures j <= i <= j + 3 && Boundary(s, j)
  {
    MeasureIsLawful();
    j := BoundaryNearby(CharLength, BreaksOff, s, i);
  }

  lemma ValidStart(s: seq<Byte>)
    requires Valid(s) && s != []
    ensures !Continues(s[0])
  {
    MeasureIsLawful();
    StartOfChars(CharLength, BreaksOff, s);
  }

  /** A valid text found in a valid text is found between characters. */
  lemma OccurrenceIsAligned(before: seq<Byte>, found: seq<Byte>, after: seq<Byte>)
    requires Valid(before + (found + after)) && Valid(found) && found != []
    ensures Valid(before) && Valid(after) && Boundary(before + (found + after), |before|)
  {
    var s := before + (found + after);
    ValidStart(found);
    assert s[|before|] == found[0];
    BoundaryCuts(s, |before|);
    assert s[..|before|] == before && s[|before|..] == found + after;
    ValidConcat(found, after);
  }

  /** The start of a valid text decodes up to its last boundary, and breaks off behind it. */
  lemma WindowDecodes(s: seq<Byte>, n: nat)
    requires Valid(s) && n <= |s|
    ensures DecodesTo(BreaksOff, s, n, ValidUpTo(s[..n]))
  {
    MeasureIsLawful();
    FirstBytesDecode(CharLength, BreaksOff, s, n);
  }

  lemma ValidUpToIsValid(s: seq<Byte>)
    ensures Valid(s[..ValidUpTo(s)])
    ensures ValidUpTo(s) == |s| <==> Valid(s)
  {
    MeasureIsLawful();
    UpToIsChars(CharLength, BreaksOff, s);
  }
}
