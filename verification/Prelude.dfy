/** Optional values, results, and the text tests shared by every component. */
module Prelude {
  datatype Option<+T> = None | Some(value: T)

  datatype Result<+T, +E> = Success(value: T) | Failure(error: E)

  /** The characters strings.TrimSpace removes (Unicode White_Space). */
  predicate IsSpace(c: char) {
    || c in {'\t', '\n', '\U{b}', '\U{c}', '\r', ' ', '\U{85}', '\U{a0}', '\U{1680}'}
    || '\U{2000}' <= c <= '\U{200a}'
    || c in {'\U{2028}', '\U{2029}', '\U{202f}', '\U{205f}', '\U{3000}'}
  }

  /** strings.TrimSpace(s) == "" */
  predicate IsBlank(s: string) {
    forall i | 0 <= i < |s| :: IsSpace(s[i])
  }

  predicate IsLabelEnd(c: char) {
    'a' <= c <= 'z' || '0' <= c <= '9'
  }

  predicate IsLabelChar(c: char) {
    IsLabelEnd(c) || c == '-'
  }

  /** A lowercase DNS label of at most max characters. */
  predicate IsLabel(s: string, max: nat) {
    && 0 < |s| <= max
    && IsLabelEnd(s[0])
    && IsLabelEnd(s[|s| - 1])
    && forall i | 0 <= i < |s| :: IsLabelChar(s[i])
  }

  predicate IsLowerHex(c: char) {
    'a' <= c <= 'f' || '0' <= c <= '9'
  }

  /** Exactly n lowercase hexadecimal characters. */
  predicate IsHex(s: string, n: nat) {
    |s| == n && forall i | 0 <= i < n :: IsLowerHex(s[i])
  }
}

/** The order in which Go code walks map keys after slices.Sort. */
module Names {
  predicate Leq(a: string, b: string) {
    || a == ""
    || (b != "" && (a[0] < b[0] || (a[0] == b[0] && Leq(a[1..], b[1..]))))
  }

  /** Strings are ordered by the first character in which they differ, and a prefix comes before what it is a prefix of. */
  lemma {:induction false} LeqByFirstDifference(a: string, b: string)
    ensures Leq(a, b) <==> a <= b || exists i :: 0 <= i < |a| && i < |b| && a[..i] == b[..i] && a[i] < b[i]
  {
    if a != "" && b != "" {
      LeqByFirstDifference(a[1..], b[1..]);
      if a[0] == b[0] {
        SharedHead(a, b);
      } else if a[0] < b[0] {
        assert a[..0] == b[..0];
      }
    }
  }

  lemma SharedHead(a: string, b: string)
    requires a != "" && b != "" && a[0] == b[0]
    ensures a <= b <==> a[1..] <= b[1..]
    ensures (exists i :: 0 <= i < |a| && i < |b| && a[..i] == b[..i] && a[i] < b[i])
       <==> (exists i :: 0 <= i < |a[1..]| && i < |b[1..]| && a[1..][..i] == b[1..][..i] && a[1..][i] < b[1..][i])
  {
    assert a == [a[0]] + a[1..] && b == [b[0]] + b[1..];
    if i :| 0 <= i < |a| && i < |b| && a[..i] == b[..i] && a[i] < b[i] {
      assert i > 0;
      assert a[1..][..i - 1] == a[..i][1..] == b[..i][1..] == b[1..][..i - 1];
      assert a[1..][i - 1] < b[1..][i - 1];
    }
    if i :| 0 <= i < |a[1..]| && i < |b[1..]| && a[1..][..i] == b[1..][..i] && a[1..][i] < b[1..][i] {
      assert a[..i + 1] == [a[0]] + a[1..][..i] == [b[0]] + b[1..][..i] == b[..i + 1];
      assert a[i + 1] < b[i + 1];
    }
  }

  lemma LeqTotal(a: string, b: string)
    ensures Leq(a, b) || Leq(b, a)
  {}

  lemma LeqTransitive(a: string, b: string, c: string)
    requires Leq(a, b) && Leq(b, c)
    ensures Leq(a, c)
  {
    if a != "" && a[0] == b[0] && b[0] == c[0] {
      LeqTransitive(a[1..], b[1..], c[1..]);
    }
  }

  lemma LeqAntisymmetric(a: string, b: string)
    requires Leq(a, b) && Leq(b, a)
    ensures a == b
  {
    if a != "" {
      LeqAntisymmetric(a[1..], b[1..]);
      assert a == [a[0]] + a[1..] == [b[0]] + b[1..] == b;
    }
  }

  predicate IsLeast(x: string, keys: set<string>) {
    x in keys && forall y | y in keys :: Leq(x, y)
  }

  lemma LeastExists(keys: set<string>)
    requires keys != {}
    ensures exists x :: IsLeast(x, keys)
  {
    var k :| k in keys;
    LeqTotal(k, k);
    if keys == {k} {
      assert IsLeast(k, keys);
    } else {
      LeastExists(keys - {k});
      var x :| IsLeast(x, keys - {k});
      LeqTotal(k, x);
      if Leq(k, x) {
        forall y | y in keys ensures Leq(k, y) {
          if y != k { LeqTransitive(k, x, y); }
        }
        assert IsLeast(k, keys);
      } else {
        assert IsLeast(x, keys);
      }
    }
  }

  lemma LeastUnique(keys: set<string>)
    ensures forall x, y | IsLeast(x, keys) && IsLeast(y, keys) :: x == y
  {
    forall x, y | IsLeast(x, keys) && IsLeast(y, keys) ensures x == y {
      LeqAntisymmetric(x, y);
    }
  }

  predicate Distinct(names: seq<string>) {
    forall i, j | 0 <= i < j < |names| :: names[i] != names[j]
  }

  predicate Ascending(names: seq<string>) {
    forall i, j | 0 <= i < j < |names| :: Leq(names[i], names[j]) && names[i] != names[j]
  }

  /** The keys, each once, in ascending order. */
  function Sorted(keys: set<string>): (names: seq<string>)
    ensures forall n :: n in names <==> n in keys
    ensures Ascending(names)
  {
    if keys == {} then []
    else
      LeastExists(keys);
      LeastUnique(keys);
      var first :| first in keys && IsLeast(first, keys);
      [first] + Sorted(keys - {first})
  }
}
