/** Stock datatypes and small facts about sequences and strings shared by the component modules. */
module Collections {

  datatype Option<+T> = None | Some(value: T)

  /** Go's byte-wise order on strings. */
  predicate StringLess(a: string, b: string) {
    if b == "" then false
    else if a == "" then true
    else if a[0] != b[0] then a[0] < b[0]
    else StringLess(a[1..], b[1..])
  }

  predicate Distinct<T(==)>(s: seq<T>) {
    forall i, j :: 0 <= i < j < |s| ==> s[i] != s[j]
  }

  /** Concatenation of a sequence of sequences. */
  function Flatten<T>(ss: seq<seq<T>>): seq<T> {
    if ss == [] then [] else Flatten(ss[..|ss| - 1]) + ss[|ss| - 1]
  }

  lemma {:induction false} FlattenConcat<T>(a: seq<seq<T>>, b: seq<seq<T>>)
    ensures Flatten(a + b) == Flatten(a) + Flatten(b)
  {
    if b == [] {
      assert a + b == a;
    } else {
      var rest, last := b[..|b| - 1], b[|b| - 1];
      assert (a + b)[..|a + b| - 1] == a + rest;
      assert (a + b)[|a + b| - 1] == last;
      FlattenConcat(a, rest);
      assert Flatten(a) + Flatten(rest) + last == Flatten(a) + (Flatten(rest) + last);
    }
  }

  /** The elements that satisfy f, in order. */
  function Filter<T>(f: T -> bool, s: seq<T>): seq<T> {
    if s == [] then [] else Filter(f, s[..|s| - 1]) + if f(s[|s| - 1]) then [s[|s| - 1]] else []
  }

  lemma {:induction false} FilterMembers<T>(f: T -> bool, s: seq<T>, x: T)
    ensures x in Filter(f, s) <==> x in s && f(x)
  {
    if s != [] {
      FilterMembers(f, s[..|s| - 1], x);
      assert s == s[..|s| - 1] + [s[|s| - 1]];
      hide Filter;
    }
  }

  lemma FilterNext<T>(f: T -> bool, s: seq<T>, x: T)
    ensures Filter(f, s + [x]) == if f(x) then Filter(f, s) + [x] else Filter(f, s)
  {
    assert (s + [x])[..|s|] == s;
  }

  /** One more element of a sequence that a loop goes through. */
  lemma FilterStep<T>(f: T -> bool, s: seq<T>, i: nat)
    requires i < |s|
    ensures Filter(f, s[..i + 1]) == if f(s[i]) then Filter(f, s[..i]) + [s[i]] else Filter(f, s[..i])
  {
    assert s[..i + 1][..i] == s[..i];
  }

  lemma {:induction false} FilterConcat<T>(f: T -> bool, a: seq<T>, b: seq<T>)
    ensures Filter(f, a + b) == Filter(f, a) + Filter(f, b)
  {
    if b == [] {
      assert a + b == a;
    } else {
      var rest, last := b[..|b| - 1], b[|b| - 1];
      assert a + b == (a + rest) + [last] && b == rest + [last];
      hide Filter;
      FilterConcat(f, a, rest);
      FilterNext(f, a + rest, last);
      FilterNext(f, rest, last);
    }
  }

  lemma FilterAt<T>(f: T -> bool, s: seq<T>, i: nat)
    requires i < |Filter(f, s)|
    ensures Filter(f, s)[i] in s && f(Filter(f, s)[i])
  {
    assert Filter(f, s)[i] in Filter(f, s);
    FilterMembers(f, s, Filter(f, s)[i]);
  }

  /** One element is filtered out of a sequence exactly when no other one is. */
  lemma {:induction false} FilterSingle<T>(f: T -> bool, s: seq<T>, k: nat)
    requires k < |s| && f(s[k])
    ensures |Filter(f, s)| == 1 <==> forall j :: 0 <= j < |s| && j != k ==> !f(s[j])
    ensures Filter(f, s) != []
  {
    var rest := s[..|s| - 1];
    if k < |rest| {
      FilterSingle(f, rest, k);
    } else {
      forall j | 0 <= j < |rest| ensures f(s[j]) ==> s[j] in Filter(f, rest) { FilterMembers(f, rest, s[j]); }
      if Filter(f, rest) != [] { FilterAt(f, rest, 0); }
    }
  }

  /** What comes after element k of a filtered sequence comes after that element in the sequence itself. */
  lemma {:induction false} FilterRest<T>(f: T -> bool, s: seq<T>, k: nat) returns (i: nat)
    requires k < |Filter(f, s)|
    ensures i < |s| && s[i] == Filter(f, s)[k]
    ensures forall j :: i < j < |s| && f(s[j]) ==> s[j] in Filter(f, s)[k + 1..]
  {
    var rest, last := s[..|s| - 1], s[|s| - 1];
    if k < |Filter(f, rest)| {
      i := FilterRest(f, rest, k);
      assert Filter(f, rest)[k + 1..] <= Filter(f, s)[k + 1..];
      assert f(last) ==> Filter(f, s)[|Filter(f, rest)|] == last;
      hide Filter;
    } else {
      i := |s| - 1;
    }
  }

  /** A schedule of n goroutines: each index below n occurs exactly once. */
  ghost predicate IsSchedule(order: seq<nat>, n: nat) {
    && (forall i :: i in order <==> 0 <= i < n)
    && Distinct(order)
  }

  /** The naturals below n. */
  function Range(n: nat): (s: set<nat>)
    ensures (forall i :: i in s <==> 0 <= i < n) && |s| == n
  {
    if n == 0 then {} else Range(n - 1) + {n - 1}
  }
}
