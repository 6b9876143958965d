/**
 * Generic sequence primitives the core relies on: sub-sequence search
 * (the `windows(n).position` / `windows(n).any` idiom and `str::contains`),
 * replace-all (`str::replace`), ASCII lower-casing and the byte type.
 */
module Seqs {
  import opened Wrappers

  /** A byte, as Rust's `u8`. */
  newtype byte = x: int | 0 <= x < 256

  /** `n` occurs in `h` starting at index `i`. */
  predicate OccursAt<T(==)>(h: seq<T>, n: seq<T>, i: nat)
  {
    i + |n| <= |h| && h[i..i + |n|] == n
  }

  /** `n` occurs somewhere in `h`. */
  ghost predicate Occurs<T>(h: seq<T>, n: seq<T>)
  {
    exists i: nat :: OccursAt(h, n, i)
  }

  /** Appending nothing changes nothing. */
  lemma AppendEmpty<T>(a: seq<T>)
    ensures a + [] == a
  {
  }

  lemma EmptyAppend<T>(a: seq<T>)
    ensures [] + a == a
  {
  }

  /** Concatenation is associative. */
  lemma AppendAssoc<T>(a: seq<T>, b: seq<T>, c: seq<T>)
    ensures (a + b) + c == a + (b + c)
  {
  }

  /** An occurrence in a suffix is an occurrence in the whole, shifted. */
  lemma OccursAtSuffix<T>(h: seq<T>, n: seq<T>, k: nat, j: nat)
    requires k <= |h|
    ensures OccursAt(h[k..], n, j) <==> OccursAt(h, n, k + j)
  {
    if k + j + |n| <= |h| {
      assert h[k..][j..j + |n|] == h[k + j..k + j + |n|];
    }
  }

  /**
   * The least index at or after `i` at which `n` occurs in `h`, scanning
   * the windows of length |n| from left to right.
   */
  function IndexFrom<T(==)>(h: seq<T>, n: seq<T>, i: nat): (r: Option<nat>)
    decreases |h| - i
    ensures r.Some? ==> i <= r.value && OccursAt(h, n, r.value)
    ensures r.Some? ==> forall j :: i <= j < r.value ==> !OccursAt(h, n, j)
    ensures r.None? ==> forall j: nat :: i <= j ==> !OccursAt(h, n, j)
  {
    if i + |n| > |h| then None
    else if h[i..i + |n|] == n then Some(i)
    else IndexFrom(h, n, i + 1)
  }

  /** The first index at which `n` occurs in `h` (0 for an empty `n`). */
  function IndexOf<T(==)>(h: seq<T>, n: seq<T>): (r: Option<nat>)
    ensures r.Some? <==> Occurs(h, n)
    ensures r.Some? ==> OccursAt(h, n, r.value)
    ensures r.Some? ==> forall j :: 0 <= j < r.value ==> !OccursAt(h, n, j)
  {
    IndexFrom(h, n, 0)
  }

  /** Rust's `str::contains`: the empty pattern is contained everywhere. */
  function Contains<T(==)>(h: seq<T>, n: seq<T>): (r: bool)
    ensures r <==> Occurs(h, n)
    ensures n == [] ==> r
  {
    assert OccursAt(h, [], 0);
    IndexOf(h, n).Some?
  }

  /**
   * Rust's `str::replace` for a non-empty pattern: every non-overlapping
   * occurrence of `from`, found from left to right, is replaced by `to`.
   */
  function ReplaceAll<T(==)>(s: seq<T>, from: seq<T>, to: seq<T>): seq<T>
    requires |from| > 0
    decreases |s|
  {
    if |s| < |from| then s
    else if s[..|from|] == from then to + ReplaceAll(s[|from|..], from, to)
    else [s[0]] + ReplaceAll(s[1..], from, to)
  }

  /** A pattern whose first element does not occur in `s` does not occur in `s`. */
  lemma AbsentWithoutFirst<T>(s: seq<T>, n: seq<T>)
    requires |n| > 0 && forall i :: 0 <= i < |s| ==> s[i] != n[0]
    ensures forall i: nat :: !OccursAt(s, n, i)
  {
    forall i: nat
      ensures !OccursAt(s, n, i)
    {
      if i + |n| <= |s| {
        assert s[i..i + |n|][0] == s[i];
      }
    }
  }

  /** A sequence that is exactly the pattern is replaced whole. */
  lemma ReplaceWhole<T>(from: seq<T>, to: seq<T>)
    requires |from| > 0
    ensures ReplaceAll(from, from, to) == to
  {
    assert from[..|from|] == from;
    assert from[|from|..] == [];
    assert to + [] == to;
  }

  /** Replacing a pattern that does not occur changes nothing. */
  lemma {:induction false} ReplaceAbsent<T>(s: seq<T>, from: seq<T>, to: seq<T>)
    requires |from| > 0
    requires forall i: nat :: !OccursAt(s, from, i)
    ensures ReplaceAll(s, from, to) == s
  {
    if |s| >= |from| {
      assert !OccursAt(s, from, 0);
      forall i: nat ensures !OccursAt(s[1..], from, i) {
        OccursAtSuffix(s, from, 1, i);
      }
      ReplaceAbsent(s[1..], from, to);
    }
  }

  /**
   * Replacing a one-element pattern by a sequence that does not hold that
   * element leaves no occurrence of it.
   */
  lemma {:induction false} ReplaceRemovesSingle<T>(s: seq<T>, x: T, to: seq<T>)
    requires x !in to
    ensures x !in ReplaceAll(s, [x], to)
  {
    if |s| >= 1 {
      ReplaceRemovesSingle(s[1..], x, to);
      if s[..1] != [x] {
        assert s[0] != x;
      }
    }
  }

  /** ASCII lower-casing of one character (Unicode case mapping is not modelled). */
  function LowerChar(c: char): char
  {
    if 'A' <= c <= 'Z' then ((c as int) + 32) as char else c
  }

  /** ASCII lower-casing of a string, character by character. */
  function Lower(s: string): (r: string)
    ensures |r| == |s|
    ensures forall i :: 0 <= i < |s| ==> r[i] == LowerChar(s[i])
    ensures forall i :: 0 <= i < |r| ==> !('A' <= r[i] <= 'Z')
  {
    if s == [] then [] else [LowerChar(s[0])] + Lower(s[1..])
  }

  /** `t` is the lower-casing of `s` when it agrees with it character by character. */
  lemma LowerIs(s: string, t: string)
    requires |s| == |t| && forall i :: 0 <= i < |s| ==> LowerChar(s[i]) == t[i]
    ensures Lower(s) == t
  {
  }

  /** Lower-casing twice is lower-casing once. */
  lemma LowerIdempotent(s: string)
    ensures Lower(Lower(s)) == Lower(s)
  {
    var l := Lower(s);
    assert forall i :: 0 <= i < |l| ==> LowerChar(l[i]) == l[i];
  }

  /** Lower-casing keeps an occurrence, of the lower-cased needle, at the same place. */
  lemma LowerKeepsOccurrence(h: string, n: string, i: nat)
    requires OccursAt(h, n, i)
    ensures OccursAt(Lower(h), Lower(n), i)
  {
    var l := Lower(h);
    forall k | 0 <= k < |n| ensures l[i..i + |n|][k] == Lower(n)[k] {
      assert h[i..i + |n|][k] == h[i + k];
    }
  }

  /** Every character is 7-bit ASCII. */
  predicate IsAscii(s: string)
  {
    forall i :: 0 <= i < |s| ==> s[i] as int < 128
  }

  /**
   * The bytes of a string, one per character (its code modulo 256). For an
   * ASCII string, which every registered header is, these are exactly the
   * UTF-8 bytes Rust's `str::as_bytes` gives.
   */
  function AsciiBytes(s: string): (r: seq<byte>)
    ensures |r| == |s|
    ensures IsAscii(s) ==> forall i :: 0 <= i < |s| ==> r[i] as int == s[i] as int
  {
    if s == [] then [] else [((s[0] as int) % 256) as byte] + AsciiBytes(s[1..])
  }

  /**
   * `idx` embeds `a` in `b` in order: `a[i] == b[idx[i]]` with strictly
   * increasing indices, so `a` is an order-preserving sub-list of `b`.
   */
  ghost predicate Embeds<T>(a: seq<T>, b: seq<T>, idx: seq<nat>)
  {
    && |idx| == |a|
    && (forall i :: 0 <= i < |idx| ==> idx[i] < |b| && a[i] == b[idx[i]])
    && (forall i, j :: 0 <= i < j < |idx| ==> idx[i] < idx[j])
  }

  /** An embedding into `b` is one into `b + [y]`. */
  lemma EmbedsGrow<T>(a: seq<T>, b: seq<T>, idx: seq<nat>, y: T)
    requires Embeds(a, b, idx)
    ensures Embeds(a, b + [y], idx)
  {
    forall i | 0 <= i < |idx| ensures (b + [y])[idx[i]] == b[idx[i]] {
    }
  }

  /** An embedding extends by the element appended to both sides. */
  lemma EmbedsSnoc<T>(a: seq<T>, b: seq<T>, idx: seq<nat>, y: T)
    requires Embeds(a, b, idx)
    ensures Embeds(a + [y], b + [y], idx + [|b|])
  {
    EmbedsGrow(a, b, idx, y);
    var a', b', idx' := a + [y], b + [y], idx + [|b|];
    forall i | 0 <= i < |idx'| ensures idx'[i] < |b'| && a'[i] == b'[idx'[i]] {
      if i < |idx| {
        assert idx'[i] == idx[i] && a'[i] == a[i];
      }
    }
  }
}
