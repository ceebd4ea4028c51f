/**
 * The parts of Java's language and library that the models below depend on:
 * null as Option, thrown exceptions as Result, 32-bit int arithmetic, the
 * String predicates the programs call, and java.util.List behaviour
 * (append, remove(Object)) including a shared ArrayList for the places where
 * two objects hold the same list.
 */
module JavaLang {

  datatype Option<+T> = None | Some(value: T)

  /** The exceptions the modelled Java code can throw. */
  datatype Exception =
    | NullPointer
    | IllegalState(message: string)
    | NoSuchElement
    | IndexOutOfBounds

  /** A Java call either returns a value or throws. */
  datatype Result<+T> = Ok(value: T) | Throws(error: Exception)

  // ---------------------------------------------------------------------------
  // 32-bit int arithmetic

  const INT_MIN: int := -0x8000_0000
  const INT_MAX: int := 0x7FFF_FFFF

  type int32 = x: int | INT_MIN <= x <= INT_MAX

  /** Two's-complement wrap-around of an exact result into a Java int. */
  function Wrap32(x: int): (r: int32)
    ensures INT_MIN <= x <= INT_MAX ==> r == x
    ensures (x - r) % 0x1_0000_0000 == 0
  {
    var m := x % 0x1_0000_0000;
    if m <= INT_MAX then m else m - 0x1_0000_0000
  }

  /** Two exact values that differ by a multiple of 2^32 wrap to the same int. */
  lemma Wrap32Congruent(x: int, y: int, k: int)
    requires x - y == 0x1_0000_0000 * k
    ensures Wrap32(x) == Wrap32(y)
  {
    var rx, ry := Wrap32(x), Wrap32(y);
    var kx := (x - rx) / 0x1_0000_0000;
    var ky := (y - ry) / 0x1_0000_0000;
    assert x - rx == 0x1_0000_0000 * kx;
    assert y - ry == 0x1_0000_0000 * ky;
    assert rx - ry == 0x1_0000_0000 * (k - kx + ky);
  }

  /** Adding wrapped ints and wrapping again is adding exactly and wrapping once. */
  lemma Wrap32Sum(x: int, y: int)
    ensures Wrap32(Wrap32(x) + Wrap32(y)) == Wrap32(x + y)
  {
    var kx := (x - Wrap32(x)) / 0x1_0000_0000;
    var ky := (y - Wrap32(y)) / 0x1_0000_0000;
    assert x - Wrap32(x) == 0x1_0000_0000 * kx;
    assert y - Wrap32(y) == 0x1_0000_0000 * ky;
    Wrap32Congruent(Wrap32(x) + Wrap32(y), x + y, -kx - ky);
  }

  function Abs(x: int): nat { if x < 0 then -x else x }

  /** Java's `/` on ints: the quotient truncated toward zero. */
  function JavaDiv(a: int, b: int): int
    requires b != 0
  {
    var q := Abs(a) / Abs(b);
    if (a < 0) != (b < 0) then -q else q
  }

  /** Java's `%` on ints: the remainder takes the sign of the dividend. */
  function JavaRem(a: int, b: int): int
    requires b != 0
  {
    a - b * JavaDiv(a, b)
  }

  /** `x % 2 != 0` in Java holds exactly for the odd numbers, negative ones included. */
  lemma JavaRemTwo(x: int)
    ensures JavaRem(x, 2) == 0 <==> x % 2 == 0
    ensures JavaRem(x, 2) != 0 <==> (x % 2 == 1)
  {
    if x < 0 {
      var q, r := (-x) / 2, (-x) % 2;
      assert -x == 2 * q + r && 0 <= r < 2;
      assert JavaRem(x, 2) == -r;
      if r == 0 {
        assert x == 2 * -q;
      } else {
        assert x == 2 * (-q - 1) + 1;
      }
    } else {
      assert JavaRem(x, 2) == x % 2;
    }
  }

  // ---------------------------------------------------------------------------
  // Strings

  predicate StartsWith(s: string, prefix: string)
  {
    |prefix| <= |s| && s[..|prefix|] == prefix
  }

  predicate EndsWith(s: string, suffix: string)
  {
    |suffix| <= |s| && s[|s| - |suffix|..] == suffix
  }

  /** String.contains: some suffix of `s` starts with `t`. */
  predicate Contains(s: string, t: string)
    ensures Contains(s, t) ==> |t| <= |s|
    decreases |s|
  {
    StartsWith(s, t) || (|s| > 0 && Contains(s[1..], t))
  }

  /** `t` occurs in `s` starting at index `i`. */
  predicate OccursAt(s: string, t: string, i: int)
  {
    0 <= i <= |s| - |t| && s[i..i + |t|] == t
  }

  /** Contains agrees with the positional definition "t occurs at some index of s". */
  lemma {:induction false} ContainsAt(s: string, t: string)
    ensures Contains(s, t) <==> exists i :: OccursAt(s, t, i)
  {
    if StartsWith(s, t) {
      assert OccursAt(s, t, 0);
    }
    if |s| > 0 {
      ContainsAt(s[1..], t);
      if Contains(s[1..], t) {
        var i :| OccursAt(s[1..], t, i);
        assert s[1..][i..i + |t|] == s[i + 1..i + 1 + |t|];
        assert OccursAt(s, t, i + 1);
      }
      if i :| OccursAt(s, t, i) {
        if i > 0 {
          assert s[1..][i - 1..i - 1 + |t|] == s[i..i + |t|];
          assert OccursAt(s[1..], t, i - 1);
        } else {
          assert StartsWith(s, t);
        }
      }
    } else {
      if i :| OccursAt(s, t, i) {
        assert StartsWith(s, t);
      }
    }
  }

  /** The empty string is contained in every string. */
  lemma ContainsEmpty(s: string)
    ensures Contains(s, "")
  {
    assert StartsWith(s, "");
  }

  /** A string that contains a non-empty `t` contains the first character of `t`. */
  lemma {:induction false} ContainsFirstChar(s: string, t: string)
    requires |t| > 0 && Contains(s, t)
    ensures t[0] in s
  {
    if StartsWith(s, t) {
      assert s[0] == t[0];
    } else {
      ContainsFirstChar(s[1..], t);
      assert s == [s[0]] + s[1..];
    }
  }

  /** A string without the first character of a non-empty `t` does not contain `t`. */
  lemma NotContainsWithoutFirstChar(s: string, t: string)
    requires |t| > 0 && t[0] !in s
    ensures !Contains(s, t)
  {
    if Contains(s, t) {
      ContainsFirstChar(s, t);
    }
  }

  function ToLowerAscii(c: char): char
  {
    if 'A' <= c <= 'Z' then (c as int - 'A' as int + 'a' as int) as char else c
  }

  /** String.equalsIgnoreCase, with case folding for the ASCII letters. */
  predicate EqualsIgnoreCase(a: string, b: string)
  {
    |a| == |b| && forall i :: 0 <= i < |a| ==> ToLowerAscii(a[i]) == ToLowerAscii(b[i])
  }

  function DigitChar(d: nat): char
    requires d < 10
  {
    ('0' as int + d) as char
  }

  function NatToString(n: nat): string
    decreases n
  {
    if n < 10 then [DigitChar(n)] else NatToString(n / 10) + [DigitChar(n % 10)]
  }

  /** Integer.toString, as used by string concatenation with an int. */
  function IntToString(n: int): string
  {
    if n < 0 then "-" + NatToString(-n) else NatToString(n)
  }

  // ---------------------------------------------------------------------------
  // java.util.List.remove(Object): delete the first equal element

  function RemoveFirst<T(==)>(s: seq<T>, x: T): seq<T>
  {
    if s == [] then []
    else if s[0] == x then s[1..]
    else [s[0]] + RemoveFirst(s[1..], x)
  }

  /** Index of the first occurrence of `x` in `s`. */
  function FirstIndex<T(==)>(s: seq<T>, x: T): (i: nat)
    requires x in s
    ensures i < |s| && s[i] == x && x !in s[..i]
  {
    if s[0] == x then 0 else 1 + FirstIndex(s[1..], x)
  }

  /** remove(Object) of an absent element leaves the list unchanged. */
  lemma {:induction false} RemoveFirstAbsent<T>(s: seq<T>, x: T)
    requires x !in s
    ensures RemoveFirst(s, x) == s
  {
    if s != [] {
      assert x !in s[1..];
      RemoveFirstAbsent(s[1..], x);
    }
  }

  /**
   * remove(Object) deletes exactly the first occurrence and keeps the order
   * of everything else.
   */
  lemma {:induction false} RemoveFirstPresent<T>(s: seq<T>, x: T)
    requires x in s
    ensures RemoveFirst(s, x) == s[..FirstIndex(s, x)] + s[FirstIndex(s, x) + 1..]
  {
    if s[0] != x {
      assert x in s[1..];
      RemoveFirstPresent(s[1..], x);
      var j := FirstIndex(s[1..], x);
      assert s[..j + 1] == [s[0]] + s[1..][..j];
      assert s[j + 2..] == s[1..][j + 1..];
    }
  }

  /** remove(Object) takes one copy of `x` out of the list's multiset, if there is one. */
  lemma {:induction false} RemoveFirstMultiset<T>(s: seq<T>, x: T)
    ensures multiset(RemoveFirst(s, x)) == multiset(s) - multiset{x}
    ensures |RemoveFirst(s, x)| == if x in s then |s| - 1 else |s|
  {
    if x in s {
      RemoveFirstPresent(s, x);
      var i := FirstIndex(s, x);
      var pre, post := s[..i], s[i + 1..];
      assert s == pre + [x] + post;
      calc {
        multiset(s);
        multiset(pre + [x] + post);
        multiset(pre) + multiset([x]) + multiset(post);
      }
      assert multiset(RemoveFirst(s, x)) == multiset(pre) + multiset(post);
    } else {
      RemoveFirstAbsent(s, x);
    }
  }

  /**
   * remove(x) right after add(x) undoes the add when x was not in the list
   * before; otherwise it removes the earlier copy and keeps the new one last.
   */
  lemma {:induction false} RemoveFirstAfterAppend<T>(s: seq<T>, x: T)
    ensures RemoveFirst(s + [x], x) == if x in s then RemoveFirst(s, x) + [x] else s
  {
    if s == [] {
      assert [] + [x] == [x];
    } else {
      assert (s + [x])[1..] == s[1..] + [x];
      if s[0] != x {
        RemoveFirstAfterAppend(s[1..], x);
        assert x in s <==> x in s[1..];
      }
    }
  }

  // ---------------------------------------------------------------------------
  // java.util.ArrayList as a shared, mutable object

  class JList<T(==)> {
    var elems: seq<T>

    constructor ()
      ensures elems == []
    {
      elems := [];
    }

    method Add(x: T)
      modifies this
      ensures elems == old(elems) + [x]
    {
      elems := elems + [x];
    }

    method Remove(x: T) returns (removed: bool)
      modifies this
      ensures elems == RemoveFirst(old(elems), x)
      ensures removed <==> x in old(elems)
    {
      removed := x in elems;
      elems := RemoveFirst(elems, x);
    }

    method Get(i: int) returns (r: Result<T>)
      ensures 0 <= i < |elems| ==> r == Ok(elems[i])
      ensures !(0 <= i < |elems|) ==> r == Throws(IndexOutOfBounds)
    {
      if 0 <= i < |elems| {
        r := Ok(elems[i]);
      } else {
        r := Throws(IndexOutOfBounds);
      }
    }
  }
}
