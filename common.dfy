/**
 * Values and collection helpers shared by the services: optional request
 * fields, handler replies, JavaScript truthiness and `||` defaulting, ASCII
 * case folding, substring search, and the `find`/`findIndex`/`filter`/`splice`
 * operations the handlers apply to their in-memory tables.
 */
module Common {

  datatype Option<T> = None | Some(value: T)

  /** A handler's reply: a status code with a JSON value, an empty body, or an `{ error }` body. */
  datatype Reply<T> =
    | Ok(status: int, value: T)
    | NoContent(status: int)
    | Fail(status: int, error: string)

  /** A JSON value that a handler stores and returns without looking into it, kept in serialized form. */
  type Json = string

  /** JavaScript truthiness of an optional string: absent and "" are falsy. */
  predicate Truthy(s: Option<string>) {
    s.Some? && s.value != ""
  }

  /** JavaScript truthiness of an optional number: absent and 0 are falsy. */
  predicate TruthyInt(n: Option<int>) {
    n.Some? && n.value != 0
  }

  predicate TruthyReal(x: Option<real>) {
    x.Some? && x.value != 0.0
  }

  /** `s || fallback` on a string field. */
  function Or(s: Option<string>, fallback: string): (r: string)
    ensures Truthy(s) ==> r == s.value
    ensures !Truthy(s) ==> r == fallback
  {
    if Truthy(s) then s.value else fallback
  }

  function OrInt(n: Option<int>, fallback: int): (r: int)
    ensures TruthyInt(n) ==> r == n.value
    ensures !TruthyInt(n) ==> r == fallback
  {
    if TruthyInt(n) then n.value else fallback
  }

  function OrReal(x: Option<real>, fallback: real): (r: real)
    ensures TruthyReal(x) ==> r == x.value
    ensures !TruthyReal(x) ==> r == fallback
  {
    if TruthyReal(x) then x.value else fallback
  }

  /** `toLowerCase` restricted to ASCII letters. */
  function LowerChar(c: char): char {
    if 'A' <= c <= 'Z' then (c as int + 32) as char else c
  }

  function Lower(s: string): (r: string)
    ensures |r| == |s|
    ensures forall i :: 0 <= i < |s| ==> r[i] == LowerChar(s[i])
  {
    seq(|s|, i requires 0 <= i < |s| => LowerChar(s[i]))
  }

  /** `hay.includes(needle)`. */
  predicate Contains(hay: string, needle: string) {
    exists k :: 0 <= k <= |hay| && needle <= hay[k..]
  }

  /** `a.toLowerCase() === b.toLowerCase()`. */
  predicate EqualsIgnoreCase(a: string, b: string) {
    Lower(a) == Lower(b)
  }

  /** `s.findIndex(p)`, with None for -1: the first index whose element satisfies `p`. */
  function FindIndex<T>(s: seq<T>, p: T -> bool): (r: Option<nat>)
    ensures r.Some? ==> r.value < |s| && p(s[r.value])
    ensures r.Some? ==> forall j :: 0 <= j < r.value ==> !p(s[j])
    ensures r.None? <==> forall j :: 0 <= j < |s| ==> !p(s[j])
  {
    if s == [] then None
    else if p(s[0]) then Some(0)
    else match FindIndex(s[1..], p)
      case None => None
      case Some(i) => Some(i + 1)
  }

  /**
    * `push` and lookup: an element appended at the end is found only when no
    * earlier element matches, and earlier matches are found where they were.
    */
  lemma {:induction false} FindIndexAppend<T>(s: seq<T>, x: T, p: T -> bool)
    ensures FindIndex(s + [x], p) ==
      if FindIndex(s, p).Some? then FindIndex(s, p) else if p(x) then Some(|s|) else None
  {
    if s == [] {
      assert [] + [x] == [x];
    } else {
      assert (s + [x])[1..] == s[1..] + [x];
      FindIndexAppend(s[1..], x, p);
    }
  }

  /** Replacing an element by one that matches exactly when it did leaves every lookup unchanged. */
  lemma {:induction false} FindIndexReplace<T>(s: seq<T>, i: nat, x: T, p: T -> bool)
    requires i < |s| && p(x) == p(s[i])
    ensures FindIndex(s[i := x], p) == FindIndex(s, p)
  {
    if i > 0 {
      assert s[i := x][1..] == s[1..][i - 1 := x];
      FindIndexReplace(s[1..], i - 1, x, p);
    }
  }

  /** `r` is `s` with some elements dropped and the rest kept in order. */
  ghost predicate IsSubsequence<T>(r: seq<T>, s: seq<T>) {
    if r == [] then true
    else if s == [] then false
    else (r[0] == s[0] && IsSubsequence(r[1..], s[1..])) || IsSubsequence(r, s[1..])
  }

  /** `s.filter(p)`. */
  function Filter<T>(s: seq<T>, p: T -> bool): (r: seq<T>)
    ensures |r| <= |s|
    ensures forall i :: 0 <= i < |r| ==> r[i] in s && p(r[i])
    ensures forall i :: 0 <= i < |s| && p(s[i]) ==> s[i] in r
    ensures forall i :: 0 <= i < |s| ==> multiset(r)[s[i]] == if p(s[i]) then multiset(s)[s[i]] else 0
    ensures IsSubsequence(r, s)
  {
    if s == [] then []
    else
      assert s == [s[0]] + s[1..];
      if p(s[0]) then [s[0]] + Filter(s[1..], p)
      else Filter(s[1..], p)
  }

  /** Filtering by a predicate that holds throughout keeps the sequence. */
  lemma {:induction false} FilterKeepsAll<T>(s: seq<T>, p: T -> bool)
    requires forall x :: x in s ==> p(x)
    ensures Filter(s, p) == s
  {
    if s != [] {
      assert forall x :: x in s[1..] ==> x in s;
      FilterKeepsAll(s[1..], p);
      assert [s[0]] + s[1..] == s;
    }
  }

  /** Filtering depends only on the predicate's values on the elements. */
  lemma {:induction false} FilterAgrees<T>(s: seq<T>, p: T -> bool, q: T -> bool)
    requires forall x :: x in s ==> p(x) == q(x)
    ensures Filter(s, p) == Filter(s, q)
  {
    if s != [] {
      assert forall x :: x in s[1..] ==> x in s;
      FilterAgrees(s[1..], p, q);
    }
  }

  /** Two filters in a row are one filter by the conjunction. */
  lemma {:induction false} FilterThen<T>(s: seq<T>, p: T -> bool, q: T -> bool, pq: T -> bool)
    requires forall x :: pq(x) == (p(x) && q(x))
    ensures Filter(Filter(s, p), q) == Filter(s, pq)
  {
    if s != [] {
      FilterThen(s[1..], p, q, pq);
      if p(s[0]) {
        assert Filter(s, p) == [s[0]] + Filter(s[1..], p);
        assert ([s[0]] + Filter(s[1..], p))[1..] == Filter(s[1..], p);
      }
    }
  }

  /** The handlers' `if (c) { results = results.filter(q) }` step. */
  function Narrow<T>(s: seq<T>, c: bool, q: T -> bool): seq<T> {
    if c then Filter(s, q) else s
  }

  /** A narrowing step applied to a filtered table is one filter by the predicate extended with `!c || q`. */
  lemma NarrowFiltered<T>(s: seq<T>, m: T -> bool, c: bool, q: T -> bool, mq: T -> bool)
    requires forall x :: mq(x) == (m(x) && (!c || q(x)))
    ensures Narrow(Filter(s, m), c, q) == Filter(s, mq)
  {
    if c {
      FilterThen(s, m, q, mq);
    } else {
      FilterAgrees(s, m, mq);
    }
  }

  /** Three narrowing steps in a row are one filter by the conjunction of their conditions. */
  lemma NarrowThree<T>(s: seq<T>, c1: bool, q1: T -> bool, c2: bool, q2: T -> bool, c3: bool, q3: T -> bool,
                       all: T -> bool)
    requires forall x :: all(x) == ((!c1 || q1(x)) && (!c2 || q2(x)) && (!c3 || q3(x)))
    ensures Narrow(Narrow(Narrow(s, c1, q1), c2, q2), c3, q3) == Filter(s, all)
  {
    var m0 := (x: T) => true;
    var m1 := (x: T) => m0(x) && (!c1 || q1(x));
    var m2 := (x: T) => m1(x) && (!c2 || q2(x));
    FilterKeepsAll(s, m0);
    NarrowFiltered(s, m0, c1, q1, m1);
    NarrowFiltered(s, m1, c2, q2, m2);
    NarrowFiltered(s, m2, c3, q3, all);
  }

  /** A filter followed by three narrowing steps is one filter by the conjunction. */
  lemma FilterNarrowThree<T>(s: seq<T>, p: T -> bool, c1: bool, q1: T -> bool, c2: bool, q2: T -> bool,
                             c3: bool, q3: T -> bool, all: T -> bool)
    requires forall x :: all(x) == (p(x) && (!c1 || q1(x)) && (!c2 || q2(x)) && (!c3 || q3(x)))
    ensures Narrow(Narrow(Narrow(Filter(s, p), c1, q1), c2, q2), c3, q3) == Filter(s, all)
  {
    var m1 := (x: T) => p(x) && (!c1 || q1(x));
    var m2 := (x: T) => m1(x) && (!c2 || q2(x));
    NarrowFiltered(s, p, c1, q1, m1);
    NarrowFiltered(s, m1, c2, q2, m2);
    NarrowFiltered(s, m2, c3, q3, all);
  }

  /** Four narrowing steps in a row are one filter by the conjunction of their conditions. */
  lemma NarrowFour<T>(s: seq<T>, c1: bool, q1: T -> bool, c2: bool, q2: T -> bool, c3: bool, q3: T -> bool,
                      c4: bool, q4: T -> bool, all: T -> bool)
    requires forall x :: all(x) == ((!c1 || q1(x)) && (!c2 || q2(x)) && (!c3 || q3(x)) && (!c4 || q4(x)))
    ensures Narrow(Narrow(Narrow(Narrow(s, c1, q1), c2, q2), c3, q3), c4, q4) == Filter(s, all)
  {
    var m0 := (x: T) => true;
    var m1 := (x: T) => m0(x) && (!c1 || q1(x));
    var m2 := (x: T) => m1(x) && (!c2 || q2(x));
    var m3 := (x: T) => m2(x) && (!c3 || q3(x));
    FilterKeepsAll(s, m0);
    NarrowFiltered(s, m0, c1, q1, m1);
    NarrowFiltered(s, m1, c2, q2, m2);
    NarrowFiltered(s, m2, c3, q3, m3);
    NarrowFiltered(s, m3, c4, q4, all);
  }

  /** `s.splice(i, 1)`: the sequence without its element at `i`, the others in order. */
  function RemoveAt<T>(s: seq<T>, i: nat): (r: seq<T>)
    requires i < |s|
    ensures |r| == |s| - 1
    ensures forall j :: 0 <= j < i ==> r[j] == s[j]
    ensures forall j :: i <= j < |r| ==> r[j] == s[j + 1]
    ensures multiset(r) + multiset{s[i]} == multiset(s)
  {
    assert s == s[..i] + [s[i]] + s[i + 1..];
    s[..i] + s[i + 1..]
  }
}
