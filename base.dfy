/** Values shared by every part of the model: bytes, optional values, results,
    chunk concatenation and the few string operations Python code uses
    (`startswith`, the `in` substring test, `split(sep, 1)`, `replace`, `strip`). */
module Base {

  newtype byte = x: int | 0 <= x < 256

  type Bytes = seq<byte>

  datatype Option<+T> = None | Some(value: T) {
    /** Python's `d.get(key, default)` once the lookup has been made. */
    function GetOr(default: T): T {
      if Some? then value else default
    }
  }

  datatype Result<+T, +E> = Success(value: T) | Failure(error: E)

  function Min(a: int, b: int): int {
    if a <= b then a else b
  }

  lemma AppendAssoc<T>(a: seq<T>, b: seq<T>, c: seq<T>)
    ensures (a + b) + c == a + (b + c)
  {
  }

  /** The chunks of a stream glued back together, in order. */
  function Concat<T>(chunks: seq<seq<T>>): seq<T> {
    if chunks == [] then [] else Concat(chunks[..|chunks| - 1]) + chunks[|chunks| - 1]
  }

  lemma ConcatSnoc<T>(chunks: seq<seq<T>>, c: seq<T>)
    ensures Concat(chunks + [c]) == Concat(chunks) + c
  {
    assert (chunks + [c])[..|chunks|] == chunks;
  }

  lemma {:induction false} ConcatCons<T>(c: seq<T>, chunks: seq<seq<T>>)
    ensures Concat([c] + chunks) == c + Concat(chunks)
    decreases |chunks|
  {
    if chunks == [] {
      assert [c] + chunks == [c];
      assert Concat([c]) == Concat([]) + c;
    } else {
      var init, last := chunks[..|chunks| - 1], chunks[|chunks| - 1];
      assert chunks == init + [last];
      assert [c] + chunks == ([c] + init) + [last];
      ConcatSnoc([c] + init, last);
      ConcatCons(c, init);
      ConcatSnoc(init, last);
    }
  }

  /** Python's `s.startswith(p)`. */
  predicate IsPrefix<T(==)>(p: seq<T>, s: seq<T>) {
    |p| <= |s| && s[..|p|] == p
  }

  /** Python's `pattern in s` on strings: a case-sensitive substring test. */
  predicate Contains<T(==)>(s: seq<T>, pattern: seq<T>)
    decreases |s|
  {
    IsPrefix(pattern, s) || (s != [] && Contains(s[1..], pattern))
  }

  lemma ContainsEmpty<T>(s: seq<T>)
    ensures Contains(s, [])
  {
    assert IsPrefix([], s);
  }

  /** A prefix of `s` is contained in `s`; so is `s` itself. */
  lemma ContainsPrefix<T>(p: seq<T>, s: seq<T>)
    requires IsPrefix(p, s)
    ensures Contains(s, p)
  {
  }

  /** Python's `s.split(sep, 1)`, with `None` where the separator is absent
      (where Python returns a one-element list). */
  function SplitFirst<T(==)>(s: seq<T>, sep: T): (r: Option<(seq<T>, seq<T>)>)
    ensures r.Some? <==> sep in s
    ensures r.Some? ==> s == r.value.0 + [sep] + r.value.1 && sep !in r.value.0
  {
    if s == [] then None
    else if s[0] == sep then Some(([], s[1..]))
    else match SplitFirst(s[1..], sep)
      case None => None
      case Some(parts) => Some(([s[0]] + parts.0, parts.1))
  }

  /** Splitting `a + [sep] + b` on its first `sep`, when `a` holds no `sep`,
      gives back `a` and `b`, whatever `b` holds. */
  lemma {:induction false} SplitFirstJoin<T>(a: seq<T>, sep: T, b: seq<T>)
    requires sep !in a
    ensures SplitFirst(a + [sep] + b, sep) == Some((a, b))
    decreases |a|
  {
    if a == [] {
      assert a + [sep] + b == [sep] + b;
    } else {
      assert (a + [sep] + b)[1..] == a[1..] + [sep] + b;
      SplitFirstJoin(a[1..], sep, b);
      assert [a[0]] + a[1..] == a;
    }
  }

  /** Python's `s.replace(target, '')` for a non-empty `target`: occurrences are
      removed left to right, without overlap. */
  function RemoveAll<T(==)>(s: seq<T>, target: seq<T>): (r: seq<T>)
    requires target != []
    ensures |r| <= |s|
    decreases |s|
  {
    if s == [] then []
    else if IsPrefix(target, s) then RemoveAll(s[|target|..], target)
    else [s[0]] + RemoveAll(s[1..], target)
  }

  /** Nothing is removed when the first element of `target` never occurs. */
  lemma {:induction false} RemoveAllAbsent<T>(s: seq<T>, target: seq<T>)
    requires target != [] && target[0] !in s
    ensures RemoveAll(s, target) == s
    decreases |s|
  {
    if s != [] {
      assert !IsPrefix(target, s) by { assert s[0] != target[0]; }
      RemoveAllAbsent(s[1..], target);
      assert [s[0]] + s[1..] == s;
    }
  }

  /** Every `x` removed from `s`, as `s.replace('-', '')` does with one character. */
  function RemoveChar<T(==)>(s: seq<T>, x: T): (r: seq<T>)
    ensures x !in r
    ensures |r| <= |s|
  {
    if s == [] then [] else (if s[0] == x then [] else [s[0]]) + RemoveChar(s[1..], x)
  }

  lemma {:induction false} RemoveCharAppend<T>(a: seq<T>, b: seq<T>, x: T)
    ensures RemoveChar(a + b, x) == RemoveChar(a, x) + RemoveChar(b, x)
    decreases |a|
  {
    if a != [] {
      assert (a + b)[1..] == a[1..] + b;
      RemoveCharAppend(a[1..], b, x);
    } else {
      assert a + b == b;
    }
  }

  lemma {:induction false} RemoveCharAbsent<T>(s: seq<T>, x: T)
    requires x !in s
    ensures RemoveChar(s, x) == s
    decreases |s|
  {
    if s != [] {
      RemoveCharAbsent(s[1..], x);
      assert [s[0]] + s[1..] == s;
    }
  }

  /** Python's `s.strip(chars)`: drops every leading and trailing element that is in `chars`. */
  function Strip<T(==)>(s: seq<T>, chars: set<T>): (r: seq<T>)
    ensures |r| <= |s|
    decreases |s|
  {
    if s == [] then []
    else if s[0] in chars then Strip(s[1..], chars)
    else if s[|s| - 1] in chars then Strip(s[..|s| - 1], chars)
    else s
  }
}
