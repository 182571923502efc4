/**
 * JavaScript string order. `Array.prototype.sort` with no comparator orders
 * strings by their UTF-16 code units, lexicographically; a Dafny `char` is a
 * Unicode scalar value, so the code units are computed explicitly.
 */
module Strings {

  /** The UTF-16 code units of one scalar value (a surrogate pair above U+FFFF). */
  function CodeUnits(c: char): (u: seq<int>)
    ensures 1 <= |u| <= 2
    ensures forall i :: 0 <= i < |u| ==> 0 <= u[i] < 0x10000
  {
    var v := c as int;
    if v < 0x10000 then [v]
    else [0xD800 + (v - 0x10000) / 0x400, 0xDC00 + (v - 0x10000) % 0x400]
  }

  /** The UTF-16 code units of a string. */
  function Utf16(s: string): (r: seq<int>)
    ensures |s| <= |r| <= 2 * |s|
  {
    if s == [] then [] else CodeUnits(s[0]) + Utf16(s[1..])
  }

  /** Lexicographic order on code-unit sequences; a proper prefix comes first. */
  predicate LexLess(a: seq<int>, b: seq<int>)
  {
    b != [] && (a == [] || a[0] < b[0] || (a[0] == b[0] && LexLess(a[1..], b[1..])))
  }

  /** `a` sorts before `b` under the default comparison of `Array.prototype.sort`. */
  predicate Less(a: string, b: string)
  {
    LexLess(Utf16(a), Utf16(b))
  }

  lemma {:induction false} LexLessIrreflexive(a: seq<int>)
    ensures !LexLess(a, a)
  {
    if a != [] {
      LexLessIrreflexive(a[1..]);
    }
  }

  lemma {:induction false} LexLessTransitive(a: seq<int>, b: seq<int>, c: seq<int>)
    requires LexLess(a, b) && LexLess(b, c)
    ensures LexLess(a, c)
  {
    if a != [] && a[0] == b[0] && b[0] == c[0] {
      LexLessTransitive(a[1..], b[1..], c[1..]);
    }
  }

  lemma {:induction false} LexLessTotal(a: seq<int>, b: seq<int>)
    requires a != b
    ensures LexLess(a, b) || LexLess(b, a)
  {
    if a != [] && b != [] && a[0] == b[0] {
      assert a == [a[0]] + a[1..] && b == [b[0]] + b[1..];
      LexLessTotal(a[1..], b[1..]);
    }
  }

  /** Distinct scalar values never start with the same code units, so UTF-16 is injective. */
  lemma {:induction false} Utf16Injective(a: string, b: string)
    requires Utf16(a) == Utf16(b)
    ensures a == b
  {
    if a != [] && b != [] {
      var ua, ub := CodeUnits(a[0]), CodeUnits(b[0]);
      assert Utf16(a) == ua + Utf16(a[1..]);
      assert Utf16(b) == ub + Utf16(b[1..]);
      assert ua[0] == Utf16(a)[0] == ub[0];
      assert |ua| == |ub| by {
        // a lone unit is never a high surrogate, and a pair always starts with one
        assert |ua| == 2 <==> 0xD800 <= ua[0] < 0xDC00;
        assert |ub| == 2 <==> 0xD800 <= ub[0] < 0xDC00;
      }
      if |ua| == 2 {
        assert ua[1] == Utf16(a)[1] == ub[1];
      }
      assert a[0] == b[0];
      assert Utf16(a[1..]) == Utf16(a)[|ua|..] == Utf16(b)[|ub|..] == Utf16(b[1..]);
      Utf16Injective(a[1..], b[1..]);
      assert a == [a[0]] + a[1..] && b == [b[0]] + b[1..];
    }
  }

  /** `Less` is a strict total order on strings. */
  lemma LessIrreflexive(a: string)
    ensures !Less(a, a)
  {
    LexLessIrreflexive(Utf16(a));
  }

  lemma LessTransitive(a: string, b: string, c: string)
    requires Less(a, b) && Less(b, c)
    ensures Less(a, c)
  {
    LexLessTransitive(Utf16(a), Utf16(b), Utf16(c));
  }

  lemma LessTotal(a: string, b: string)
    requires a != b
    ensures Less(a, b) || Less(b, a)
  {
    if Utf16(a) == Utf16(b) {
      Utf16Injective(a, b);
    }
    LexLessTotal(Utf16(a), Utf16(b));
  }

  /** Ascending order, equal neighbours allowed. */
  predicate Sorted(s: seq<string>)
  {
    forall i, j :: 0 <= i < j < |s| ==> !Less(s[j], s[i])
  }

  /** Ascending order with no repeats. */
  predicate StrictlyAscending(s: seq<string>)
  {
    forall i, j :: 0 <= i < j < |s| ==> Less(s[i], s[j])
  }

  /**
   * When the head sorts before `x`, nothing that follows it once `x` is put into
   * the tail sorts before the head.
   */
  lemma AfterHeadNotLess(x: string, s: seq<string>, rest: seq<string>)
    requires Sorted(s) && s != [] && Less(s[0], x)
    requires multiset(rest) == multiset(s[1..]) + multiset{x}
    ensures forall k :: 0 <= k < |rest| ==> !Less(rest[k], s[0])
  {
    forall k | 0 <= k < |rest|
      ensures !Less(rest[k], s[0])
    {
      assert rest[k] in multiset(rest);
      if rest[k] == x {
        if Less(x, s[0]) { LessTransitive(x, s[0], x); LessIrreflexive(x); }
      } else {
        assert rest[k] in multiset(s[1..]);
        var j :| 0 <= j < |s[1..]| && s[1..][j] == rest[k];
        assert s[j + 1] == rest[k];
      }
    }
  }

  /** No element of a sorted list whose head does not sort before `x` sorts before `x`. */
  lemma NoneLessThanHead(x: string, s: seq<string>)
    requires Sorted(s) && s != [] && !Less(s[0], x)
    ensures forall k :: 0 <= k < |s| ==> !Less(s[k], x)
  {
    forall k | 0 <= k < |s|
      ensures !Less(s[k], x)
    {
      if k > 0 && Less(s[k], x) && s[0] != s[k] {
        LessTotal(s[0], s[k]);
        LessTransitive(s[0], s[k], x);
      }
    }
  }

  /** Inserts `x` before the first element that does not sort before it. */
  function Insert(x: string, s: seq<string>): (r: seq<string>)
    requires Sorted(s)
    ensures Sorted(r)
    ensures multiset(r) == multiset(s) + multiset{x}
  {
    if s == [] then [x]
    else if Less(s[0], x) then
      assert s == [s[0]] + s[1..];
      var rest := Insert(x, s[1..]);
      AfterHeadNotLess(x, s, rest);
      [s[0]] + rest
    else
      NoneLessThanHead(x, s);
      [x] + s
  }

  /** The sort `Object.keys(...).sort()` performs: insertion sort by `Less`. */
  function Sort(s: seq<string>): (r: seq<string>)
    ensures Sorted(r)
    ensures multiset(r) == multiset(s)
  {
    if s == [] then []
    else
      assert s == [s[0]] + s[1..];
      Insert(s[0], Sort(s[1..]))
  }

  /** Two sorted arrangements of one multiset start with the same string, its least element. */
  lemma SortedHeadsEqual(a: seq<string>, b: seq<string>)
    requires Sorted(a) && Sorted(b) && a != []
    requires multiset(a) == multiset(b)
    ensures b != [] && a[0] == b[0]
  {
    assert a[0] in multiset(b);
    var k :| 0 <= k < |b| && b[k] == a[0];
    assert b[0] in multiset(a);
    var m :| 0 <= m < |a| && a[m] == b[0];
    assert !Less(a[0], b[0]) by { if k == 0 { LessIrreflexive(a[0]); } }
    assert !Less(b[0], a[0]) by { if m == 0 { LessIrreflexive(b[0]); } }
    if a[0] != b[0] {
      LessTotal(a[0], b[0]);
    }
  }

  /** Dropping the head of a sorted sequence leaves it sorted. */
  lemma SortedTail(a: seq<string>)
    requires Sorted(a) && a != []
    ensures Sorted(a[1..])
  {
    var t := a[1..];
    forall i, j | 0 <= i < j < |t|
      ensures !Less(t[j], t[i])
    {
      assert t[i] == a[i + 1] && t[j] == a[j + 1];
    }
  }

  /** Two sequences with the same multiset and the same head have tails with the same multiset. */
  lemma TailsSameMultiset(a: seq<string>, b: seq<string>)
    requires a != [] && b != [] && a[0] == b[0]
    requires multiset(a) == multiset(b)
    ensures multiset(a[1..]) == multiset(b[1..])
  {
    assert a == [a[0]] + a[1..] && b == [b[0]] + b[1..];
    assert multiset(a) == multiset{a[0]} + multiset(a[1..]);
    assert multiset(b) == multiset{b[0]} + multiset(b[1..]);
    forall z
      ensures multiset(a[1..])[z] == multiset(b[1..])[z]
    {
      assert multiset(a)[z] == multiset(b)[z];
    }
  }

  /** There is exactly one sorted arrangement of a multiset of strings. */
  lemma {:induction false} SortedUnique(a: seq<string>, b: seq<string>)
    requires Sorted(a) && Sorted(b)
    requires multiset(a) == multiset(b)
    ensures a == b
    decreases |a|
  {
    if a != [] {
      SortedHeadsEqual(a, b);
      TailsSameMultiset(a, b);
      SortedTail(a);
      SortedTail(b);
      SortedUnique(a[1..], b[1..]);
      assert a == [a[0]] + a[1..] && b == [b[0]] + b[1..];
    } else {
      assert |multiset(b)| == 0;
    }
  }

  /** The sort depends only on the multiset of its input, not on the input's order. */
  lemma SortIgnoresOrder(s: seq<string>, t: seq<string>)
    requires multiset(s) == multiset(t)
    ensures Sort(s) == Sort(t)
  {
    SortedUnique(Sort(s), Sort(t));
  }

  /** Sorting strings without repeats gives a strictly ascending sequence. */
  lemma SortedDistinctAscending(s: seq<string>)
    requires Sorted(s)
    requires forall i, j :: 0 <= i < j < |s| ==> s[i] != s[j]
    ensures StrictlyAscending(s)
  {
    forall i, j | 0 <= i < j < |s|
      ensures Less(s[i], s[j])
    {
      LessTotal(s[i], s[j]);
    }
  }
}

/** UTF-8, as `TextEncoder.encode` produces it. */
module Utf8 {
  import opened Wrappers
  import opened Bytes

  /** The one to four octets of a scalar value. */
  function EncodeChar(c: char): (r: seq<byte>)
    ensures 1 <= |r| <= 4
    ensures |r| == 1 <==> c as int < 0x80
  {
    var v := c as int;
    if v < 0x80 then [v]
    else if v < 0x800 then [0xC0 + v / 0x40, 0x80 + v % 0x40]
    else if v < 0x10000 then [0xE0 + v / 0x1000, 0x80 + (v / 0x40) % 0x40, 0x80 + v % 0x40]
    else [0xF0 + v / 0x40000, 0x80 + (v / 0x1000) % 0x40, 0x80 + (v / 0x40) % 0x40, 0x80 + v % 0x40]
  }

  /** The octets of a string: each character's encoding, in order. */
  function Encode(s: string): (r: seq<byte>)
    ensures |s| <= |r| <= 4 * |s|
    ensures (forall i :: 0 <= i < |s| ==> s[i] as int < 0x80) ==> |r| == |s|
  {
    if s == [] then [] else EncodeChar(s[0]) + Encode(s[1..])
  }

  /** How many octets a character's encoding has, read from its first octet. */
  function LeadLength(b: byte): nat
  {
    if b < 0x80 then 1 else if b < 0xE0 then 2 else if b < 0xF0 then 3 else 4
  }

  /** The scalar value spelled by one to four octets, the lead octet's marker bits dropped. */
  function ScalarOf(b: seq<byte>): int
    requires 1 <= |b| <= 4
  {
    var b0, b1, b2, b3 := b[0] as int, if |b| > 1 then b[1] as int else 0,
                          if |b| > 2 then b[2] as int else 0, if |b| > 3 then b[3] as int else 0;
    if |b| == 1 then b0
    else if |b| == 2 then (b0 - 0xC0) * 0x40 + (b1 - 0x80)
    else if |b| == 3 then (b0 - 0xE0) * 0x1000 + (b1 - 0x80) * 0x40 + (b2 - 0x80)
    else (b0 - 0xF0) * 0x40000 + (b1 - 0x80) * 0x1000 + (b2 - 0x80) * 0x40 + (b3 - 0x80)
  }

  predicate IsScalar(v: int)
  {
    0 <= v < 0xD800 || 0xE000 <= v < 0x110000
  }

  /**
   * Reads the octets back as characters: the lead octet gives each character's
   * length. It accepts every encoding `Encode` produces; it is a reference for the
   * round trip, not a validating decoder (it does not reject overlong forms).
   */
  function Decode(b: seq<byte>): (r: Option<string>)
    decreases |b|
  {
    if b == [] then Some([])
    else
      var n := LeadLength(b[0]);
      if |b| < n || !IsScalar(ScalarOf(b[..n])) then None
      else
        match Decode(b[n..])
        case None => None
        case Some(rest) => Some([ScalarOf(b[..n]) as char] + rest)
  }

  /** Splits a scalar value into its 6-bit groups: v = q * 64^k + (lower groups). */
  lemma SixBitGroups(v: nat)
    ensures v / 0x1000 == (v / 0x40) / 0x40
    ensures v / 0x40000 == (v / 0x1000) / 0x40
    ensures v == (v / 0x40) * 0x40 + v % 0x40
    ensures v / 0x40 == (v / 0x1000) * 0x40 + (v / 0x40) % 0x40
    ensures v / 0x1000 == (v / 0x40000) * 0x40 + (v / 0x1000) % 0x40
  {
    var q1 := v / 0x40;
    var q2 := q1 / 0x40;
    assert v == q2 * 0x1000 + (q1 % 0x40) * 0x40 + v % 0x40;
    assert v / 0x1000 == q2;
    var q3 := q2 / 0x40;
    assert v == q3 * 0x40000 + (q2 % 0x40) * 0x1000 + (q1 % 0x40) * 0x40 + v % 0x40;
    assert v / 0x40000 == q3;
  }

  /** A character's encoding announces its own length in its lead octet and spells its value. */
  lemma DecodeEncodeChar(c: char)
    ensures |EncodeChar(c)| == LeadLength(EncodeChar(c)[0])
    ensures ScalarOf(EncodeChar(c)) == c as int
  {
    SixBitGroups(c as int);
  }

  /** Decoding an encoding gives the string back: the encoding loses nothing. */
  lemma {:induction false} DecodeEncode(s: string)
    ensures Decode(Encode(s)) == Some(s)
    decreases |s|
  {
    if s != [] {
      var e, rest := EncodeChar(s[0]), Encode(s[1..]);
      DecodeEncodeChar(s[0]);
      DecodeEncode(s[1..]);
      var b := e + rest;
      assert b[0] == e[0];
      assert b[..|e|] == e && b[|e|..] == rest;
      assert IsScalar(s[0] as int);
      assert [s[0]] + s[1..] == s;
    }
  }

  /** Distinct strings have distinct UTF-8 octets. */
  lemma EncodeInjective(s: string, t: string)
    requires Encode(s) == Encode(t)
    ensures s == t
  {
    DecodeEncode(s);
    DecodeEncode(t);
  }
}
