/** Hashing of a value with everything that it points to (lib/deephash.go). Bytes are characters here. */
module DeepHash {
  import opened Collections

  // ---- Values ----

  /**
   * Values by kind. Numbers of a fixed size come with their big-endian encoding; binary.Write refuses int
   * and uint, so these write nothing. Maps have string keys.
   */
  datatype Value =
    | Invalid
    | Bool(b: bool)
    | FixedSize(encoding: string)
    | PlatformInt(i: int)
    | Text(s: string)
    | Pointer(address: nat)
    | List(items: seq<Value>)
    | Struct(fields: seq<Field>)
    | Map(entries: map<string, Value>)

  datatype Field = Field(name: string, value: Value)

  /** What the pointers point to; nil is not in the heap. */
  type Heap = map<nat, Value>

  // ---- Sorted keys ----

  ghost predicate Ascending(keys: seq<string>) {
    forall i, j :: 0 <= i < j < |keys| ==> StringLess(keys[i], keys[j])
  }

  lemma {:induction false} LessIsTransitive(a: string, b: string, c: string)
    requires StringLess(a, b) && StringLess(b, c)
    ensures StringLess(a, c)
  {
    if a != "" && a[0] == b[0] == c[0] { LessIsTransitive(a[1..], b[1..], c[1..]); }
  }

  lemma {:induction false} LessIsTotal(a: string, b: string)
    ensures StringLess(a, b) || StringLess(b, a) || a == b
    ensures !StringLess(a, a)
  {
    if a != "" {
      LessIsTotal(a[1..], if b != "" then b[1..] else "");
      if b != "" && a[0] == b[0] { assert a[1..] == b[1..] ==> a == [a[0]] + a[1..] == b; }
    }
  }

  /** Up to position i the texts agree, and there a ends or has the smaller character. */
  predicate LessAt(a: string, b: string, i: int) {
    0 <= i <= |a| && i < |b| && a[..i] == b[..i] && (i < |a| ==> a[i] < b[i])
  }

  lemma SameFirst(a: string, b: string, i: int)
    requires LessAt(a, b, i)
    ensures i > 0 ==> a != "" && b != "" && a[0] == b[0]
  {
    if i > 0 { assert a[0] == a[..i][0] == b[..i][0] == b[0]; }
  }

  /** The order is the lexicographic one. */
  lemma {:induction false} LessIsLexicographic(a: string, b: string)
    ensures StringLess(a, b) <==> exists i :: LessAt(a, b, i)
  {
    if a == "" || b == "" || a[0] != b[0] {
      if StringLess(a, b) { assert LessAt(a, b, 0); }
      if i :| LessAt(a, b, i) { SameFirst(a, b, i); }
    } else {
      LessIsLexicographic(a[1..], b[1..]);
      if i :| LessAt(a[1..], b[1..], i) {
        assert a[..i + 1] == [a[0]] + a[1..][..i] && b[..i + 1] == [b[0]] + b[1..][..i];
        assert LessAt(a, b, i + 1);
      }
      if i :| LessAt(a, b, i) {
        assert a[1..][..i - 1] == a[..i][1..] && b[1..][..i - 1] == b[..i][1..];
        assert LessAt(a[1..], b[1..], i - 1);
      }
    }
  }

  /** sortableValues on strings: x takes its place. */
  function Insert(keys: seq<string>, x: string): seq<string> {
    if keys == [] || StringLess(keys[|keys| - 1], x) then keys + [x]
    else Insert(keys[..|keys| - 1], x) + [keys[|keys| - 1]]
  }

  lemma {:induction false} InsertAscends(keys: seq<string>, x: string)
    requires Ascending(keys) && x !in keys
    ensures Ascending(Insert(keys, x))
    ensures forall y :: y in Insert(keys, x) <==> y == x || y in keys
  {
    if keys == [] {
    } else {
      var rest, last := keys[..|keys| - 1], keys[|keys| - 1];
      assert keys == rest + [last];
      LessIsTotal(last, x);
      if StringLess(last, x) {
        forall i | 0 <= i < |keys| ensures StringLess(keys[i], x) {
          if i < |rest| { LessIsTransitive(keys[i], last, x); }
        }
        hide StringLess;
      } else {
        InsertAscends(rest, x);
        hide StringLess;
        var n := Insert(rest, x);
        forall i | 0 <= i < |n| ensures StringLess(n[i], last) {
          assert n[i] in n;
          if n[i] != x {
            var k :| 0 <= k < |rest| && rest[k] == n[i];
          }
        }
      }
    }
  }

  /** An ascending list is determined by its elements. */
  lemma {:induction false} AscendingIsUnique(a: seq<string>, b: seq<string>)
    requires Ascending(a) && Ascending(b) && forall k :: k in a <==> k in b
    ensures a == b
  {
    hide StringLess;
    if b != [] { assert b[0] in b; }
    if a != [] {
      assert a[|a| - 1] in a;
      var la, lb := a[|a| - 1], b[|b| - 1];
      assert lb in b;
      if la != lb { LastIsGreatest(a, lb); LastIsGreatest(b, la); LessApart(la, lb); }
      var ra, rb := a[..|a| - 1], b[..|b| - 1];
      forall k ensures k in ra <==> k in rb {
        RestHas(a, k);
        RestHas(b, k);
      }
      AscendingIsUnique(ra, rb);
      assert a == ra + [la] && b == rb + [lb];
    }
  }

  lemma LessApart(a: string, b: string)
    ensures !(StringLess(a, b) && StringLess(b, a))
  {
    if StringLess(a, b) && StringLess(b, a) {
      LessIsTransitive(a, b, a);
      LessIsTotal(a, a);
    }
  }

  lemma LastIsGreatest(a: seq<string>, k: string)
    requires Ascending(a) && k in a && k != a[|a| - 1]
    ensures StringLess(k, a[|a| - 1])
  {
  }

  lemma RestHas(a: seq<string>, k: string)
    requires Ascending(a) && a != []
    ensures k in a[..|a| - 1] <==> k in a && k != a[|a| - 1]
  {
    var rest, last := a[..|a| - 1], a[|a| - 1];
    assert a == rest + [last];
    LessIsTotal(last, last);
    hide StringLess;
  }

  ghost predicate IsSorted(keys: seq<string>, s: set<string>) {
    Ascending(keys) && forall k :: k in keys <==> k in s
  }

  lemma {:induction false} SortedExists(s: set<string>)
    ensures exists keys :: IsSorted(keys, s)
    decreases s
  {
    if s == {} {
      assert IsSorted([], s);
    } else {
      var k :| k in s;
      SortedExists(s - {k});
      var keys :| IsSorted(keys, s - {k});
      InsertAscends(keys, k);
      assert IsSorted(Insert(keys, k), s);
    }
  }

  ghost function SortedKeys(s: set<string>): (keys: seq<string>)
    ensures IsSorted(keys, s)
  {
    SortedExists(s);
    var keys :| IsSorted(keys, s);
    keys
  }

  // ---- What is written ----

  /** The parts of a list, a structure or a map, with the label that is written before each. */
  ghost function PartCount(v: Value): nat {
    match v
    case List(items) => |items|
    case Struct(fields) => |fields|
    case Map(entries) => |SortedKeys(entries.Keys)|
    case _ => 0
  }

  ghost function Label(v: Value, i: nat): string
    requires i < PartCount(v)
  {
    match v
    case List(_) => ""
    case Struct(fields) => fields[i].name
    case Map(entries) => SortedKeys(entries.Keys)[i]
  }

  ghost function Part(v: Value, i: nat): (part: Value)
    requires i < PartCount(v)
    ensures part < v
  {
    match v
    case List(items) => items[i]
    case Struct(fields) => fields[i].value
    case Map(entries) =>
      assert SortedKeys(entries.Keys)[i] in entries;
      entries[SortedKeys(entries.Keys)[i]]
  }

  /** What a value without parts and pointers writes. */
  function Leaf(v: Value): string {
    match v
    case Invalid => [0 as char]
    case Bool(b) => [(if b then 1 else 0) as char]
    case FixedSize(encoding) => encoding
    case Text(s) => s
    case _ => ""
  }

  function Unvisited(heap: Heap, visited: set<nat>): set<nat> { heap.Keys - visited }

  /** All that deepHash writes, or None if it panics over a recursive structure. */
  ghost function Output(v: Value, heap: Heap, visited: set<nat>): Option<string>
    decreases Unvisited(heap, visited), v, 1, 0
  {
    if v.Pointer? then
      if v.address in visited then None
      else if v.address in heap then Output(heap[v.address], heap, visited + {v.address})
      else Some(Leaf(Invalid))
    else if v.List? || v.Struct? || v.Map? then PartsOutput(v, heap, visited, PartCount(v))
    else Some(Leaf(v))
  }

  ghost function PartsOutput(v: Value, heap: Heap, visited: set<nat>, n: nat): Option<string>
    requires n <= PartCount(v)
    decreases Unvisited(heap, visited), v, 0, n
  {
    if n == 0 then Some("")
    else
      var before := PartsOutput(v, heap, visited, n - 1);
      var part := Output(Part(v, n - 1), heap, visited);
      if before.None? || part.None? then None else Some(before.value + Label(v, n - 1) + part.value)
  }

  lemma OutputOfParts(v: Value, heap: Heap, visited: set<nat>)
    requires v.List? || v.Struct? || v.Map?
    ensures Output(v, heap, visited) == PartsOutput(v, heap, visited, PartCount(v))
  {
  }

  lemma {:induction false} PartsFail(v: Value, heap: Heap, visited: set<nat>, i: nat, n: nat)
    requires i < n <= PartCount(v) && Output(Part(v, i), heap, visited).None?
    ensures PartsOutput(v, heap, visited, n).None?
    decreases n
  {
    if i < n - 1 { PartsFail(v, heap, visited, i, n - 1); }
  }

  // ---- The traversal ----

  /** The first i parts have been written. */
  ghost predicate RoundDone(v: Value, heap: Heap, visited: set<nat>, i: nat, before: string, written: string)
    requires i <= PartCount(v)
  {
    PartsOutput(v, heap, visited, i).Some? && written == before + PartsOutput(v, heap, visited, i).value
  }

  lemma RoundsDone(v: Value, heap: Heap, visited: set<nat>, before: string, written: string)
    requires (v.List? || v.Struct? || v.Map?) && RoundDone(v, heap, visited, PartCount(v), before, written)
    ensures Output(v, heap, visited).Some? && written == before + Output(v, heap, visited).value
  {
  }

  class Hasher {
    var written: string
    var visited: set<nat>

    /** DeepHash. */
    constructor ()
      ensures written == "" && visited == {}
    {
      written, visited := "", {};
    }

    method Write(s: string)
      modifies this`written
      ensures written == old(written) + s
    {
      written := written + s;
    }

    /** deepHash; it is not ok if it panics. */
    method Hash(v: Value, heap: Heap) returns (ok: bool)
      modifies this
      ensures ok <==> Output(v, heap, old(visited)).Some?
      ensures ok ==> written == old(written) + Output(v, heap, old(visited)).value && visited == old(visited)
      decreases Unvisited(heap, visited), v, 2
    {
      match v
      case Pointer(address) =>
        if address in visited { return false; }
        ghost var before := visited;
        visited := visited + {address};
        if address in heap {
          assert Unvisited(heap, visited) < Unvisited(heap, before) by { assert address in Unvisited(heap, before); }
          ok := Hash(heap[address], heap);
          if !ok { return; }
        } else {
          Write(Leaf(Invalid));
        }
        visited := visited - {address};
        assert visited == before;
        return true;
      case List(_) => ok := HashList(v, heap);
      case Struct(_) => ok := HashStruct(v, heap);
      case Map(_) => ok := HashMap(v, heap);
      case _ =>
        Write(Leaf(v));
        return true;
    }

    /** One round of the loops: a label and the part after it. */
    method HashPart(v: Value, ghost i: nat, name: string, part: Value, heap: Heap, ghost before: string) returns (ok: bool)
      requires i < PartCount(v) && name == Label(v, i) && part == Part(v, i)
      requires RoundDone(v, heap, visited, i, before, written)
      modifies this
      ensures ok ==> visited == old(visited) && RoundDone(v, heap, visited, i + 1, before, written)
      ensures !ok ==> PartsOutput(v, heap, old(visited), PartCount(v)).None?
      decreases Unvisited(heap, visited), v, 0
    {
      Write(name);
      ok := Hash(part, heap);
      if !ok {
        PartsFail(v, heap, old(visited), i, PartCount(v));
      }
    }

    method HashList(v: Value, heap: Heap) returns (ok: bool)
      requires v.List?
      modifies this
      ensures ok <==> Output(v, heap, old(visited)).Some?
      ensures ok ==> written == old(written) + Output(v, heap, old(visited)).value && visited == old(visited)
      decreases Unvisited(heap, visited), v, 1
    {
      OutputOfParts(v, heap, visited);
      hide Ascending, IsSorted, StringLess, Output, PartsOutput;
      for i := 0 to |v.items|
        invariant RoundDone(v, heap, old(visited), i, old(written), written) && visited == old(visited)
      {
        ok := HashPart(v, i, "", v.items[i], heap, old(written));
        if !ok { return; }
      }
      RoundsDone(v, heap, visited, old(written), written);
      return true;
    }

    method HashStruct(v: Value, heap: Heap) returns (ok: bool)
      requires v.Struct?
      modifies this
      ensures ok <==> Output(v, heap, old(visited)).Some?
      ensures ok ==> written == old(written) + Output(v, heap, old(visited)).value && visited == old(visited)
      decreases Unvisited(heap, visited), v, 1
    {
      OutputOfParts(v, heap, visited);
      hide Ascending, IsSorted, StringLess, Output, PartsOutput;
      for i := 0 to |v.fields|
        invariant RoundDone(v, heap, old(visited), i, old(written), written) && visited == old(visited)
      {
        ok := HashPart(v, i, v.fields[i].name, v.fields[i].value, heap, old(written));
        if !ok { return; }
      }
      RoundsDone(v, heap, visited, old(written), written);
      return true;
    }

    /** The keys come from the map in any order. */
    method HashMap(v: Value, heap: Heap) returns (ok: bool)
      requires v.Map?
      modifies this
      ensures ok <==> Output(v, heap, old(visited)).Some?
      ensures ok ==> written == old(written) + Output(v, heap, old(visited)).value && visited == old(visited)
      decreases Unvisited(heap, visited), v, 1
    {
      var keys := Sort(v.entries.Keys);
      AscendingIsUnique(keys, SortedKeys(v.entries.Keys));
      assert forall i :: 0 <= i < |keys| ==> keys[i] in v.entries;
      OutputOfParts(v, heap, visited);
      hide Ascending, IsSorted, StringLess, Output, PartsOutput;
      for i := 0 to |keys|
        invariant RoundDone(v, heap, old(visited), i, old(written), written) && visited == old(visited)
      {
        ok := HashPart(v, i, keys[i], v.entries[keys[i]], heap, old(written));
        if !ok { return; }
      }
      RoundsDone(v, heap, visited, old(written), written);
      return true;
    }
  }

  /** MapKeys in any order, and sort.Sort. */
  method Sort(s: set<string>) returns (keys: seq<string>)
    ensures IsSorted(keys, s)
  {
    keys := [];
    var todo := s;
    while todo != {}
      invariant todo <= s && IsSorted(keys, s - todo)
      decreases todo
    {
      var k :| k in todo;
      InsertAscends(keys, k);
      keys, todo := Insert(keys, k), todo - {k};
    }
    assert s - {} == s;
  }

  // ---- Recursive structures ----

  /** The addresses in a value itself, without following any. */
  ghost function Addresses(v: Value): set<nat>
    decreases v, 1, 0
  {
    if v.Pointer? then {v.address} else PartsAddresses(v, PartCount(v))
  }

  ghost function PartsAddresses(v: Value, n: nat): set<nat>
    requires n <= PartCount(v)
    decreases v, 0, n
  {
    if n == 0 then {} else PartsAddresses(v, n - 1) + Addresses(Part(v, n - 1))
  }

  ghost predicate Leads(heap: Heap, a: nat, b: nat) { a in heap && b in Addresses(heap[a]) }

  /** A chain of pointers: the first is in v, each next one in what the one before points to. */
  ghost predicate IsChain(path: seq<nat>, v: Value, heap: Heap) {
    && path != [] && path[0] in Addresses(v)
    && forall i :: 0 <= i < |path| - 1 ==> Leads(heap, path[i], path[i + 1])
  }

  /** A chain that ends where it, or the traversal, has been before. */
  ghost predicate Returns(path: seq<nat>, v: Value, heap: Heap, visited: set<nat>) {
    IsChain(path, v, heap) && (path[|path| - 1] in visited || path[|path| - 1] in path[..|path| - 1])
  }

  ghost predicate Recursive(v: Value, heap: Heap, visited: set<nat>) {
    exists path :: Returns(path, v, heap, visited)
  }

  lemma {:induction false} AddressesOfParts(v: Value, n: nat, i: nat)
    requires i < n <= PartCount(v)
    ensures Addresses(Part(v, i)) <= PartsAddresses(v, n)
    decreases n
  {
    if i < n - 1 { AddressesOfParts(v, n - 1, i); }
  }

  lemma {:induction false} PartWithAddress(v: Value, n: nat, a: nat) returns (i: nat)
    requires n <= PartCount(v) && a in PartsAddresses(v, n)
    ensures i < n && a in Addresses(Part(v, i))
    decreases n
  {
    if a in Addresses(Part(v, n - 1)) { i := n - 1; } else { i := PartWithAddress(v, n - 1, a); }
  }

  lemma StepInto(path: seq<nat>, a: nat, heap: Heap, visited: set<nat>)
    requires a in heap && Returns(path, heap[a], heap, visited + {a})
    ensures Returns([a] + path, Pointer(a), heap, visited)
  {
    var p := [a] + path;
    hide Addresses;
    assert Addresses(Pointer(a)) == {a} by { AddressesOfPointer(a); }
    forall i | 0 <= i < |p| - 1 ensures Leads(heap, p[i], p[i + 1]) {
      assert i > 0 ==> p[i] == path[i - 1] && p[i + 1] == path[i - 1 + 1];
    }
    var last := p[|p| - 1];
    assert last == path[|path| - 1];
    if last in path[..|path| - 1] {
      var k :| 0 <= k < |path| - 1 && path[k] == last;
      assert p[..|p| - 1][k + 1] == last;
    } else if last == a {
      assert p[..|p| - 1][0] == a;
    }
  }

  lemma AddressesOfPointer(a: nat)
    ensures Addresses(Pointer(a)) == {a}
  {
  }

  lemma StepOut(path: seq<nat>, a: nat, heap: Heap, visited: set<nat>)
    requires Returns(path, Pointer(a), heap, visited) && a !in visited
    ensures a in heap && Returns(path[1..], heap[a], heap, visited + {a})
  {
    AddressesOfPointer(a);
    hide Addresses;
    var last := path[|path| - 1];
    assert path[0] == a;
    assert |path| > 1;
    var rest := path[1..];
    assert Leads(heap, path[0], path[0 + 1]);
    forall i | 0 <= i < |rest| - 1 ensures Leads(heap, rest[i], rest[i + 1]) {
      assert rest[i] == path[i + 1] && rest[i + 1] == path[i + 1 + 1];
    }
    if last !in visited {
      var k :| 0 <= k < |path| - 1 && path[k] == last;
      if k > 0 { assert rest[..|rest| - 1][k - 1] == last; }
    }
  }

  /** A panic shows a recursion. */
  lemma {:induction false} PanicIsRecursion(v: Value, heap: Heap, visited: set<nat>)
    requires Output(v, heap, visited).None?
    ensures Recursive(v, heap, visited)
    decreases Unvisited(heap, visited), v, 1, 0
  {
    if v.Pointer? {
      if v.address in visited {
        assert Returns([v.address], v, heap, visited);
      } else {
        assert v.address in Unvisited(heap, visited);
        PanicIsRecursion(heap[v.address], heap, visited + {v.address});
        var path :| Returns(path, heap[v.address], heap, visited + {v.address});
        StepInto(path, v.address, heap, visited);
      }
    } else {
      PartsPanic(v, heap, visited, PartCount(v));
    }
  }

  lemma {:induction false} PartsPanic(v: Value, heap: Heap, visited: set<nat>, n: nat)
    requires !v.Pointer? && n <= PartCount(v) && PartsOutput(v, heap, visited, n).None?
    ensures Recursive(v, heap, visited)
    decreases Unvisited(heap, visited), v, 0, n
  {
    if Output(Part(v, n - 1), heap, visited).None? {
      PanicIsRecursion(Part(v, n - 1), heap, visited);
      var path :| Returns(path, Part(v, n - 1), heap, visited);
      AddressesOfParts(v, PartCount(v), n - 1);
      assert Returns(path, v, heap, visited);
    } else {
      PartsPanic(v, heap, visited, n - 1);
    }
  }

  /** And a recursion makes the traversal panic. */
  lemma {:induction false} RecursionPanics(path: seq<nat>, v: Value, heap: Heap, visited: set<nat>)
    requires Returns(path, v, heap, visited)
    ensures Output(v, heap, visited).None?
    decreases Unvisited(heap, visited), v
  {
    if v.Pointer? {
      if v.address !in visited {
        StepOut(path, v.address, heap, visited);
        assert v.address in Unvisited(heap, visited);
        RecursionPanics(path[1..], heap[v.address], heap, visited + {v.address});
      }
    } else {
      var i := PartWithAddress(v, PartCount(v), path[0]);
      RecursionPanics(path, Part(v, i), heap, visited);
      PartsFail(v, heap, visited, i, PartCount(v));
    }
  }

  /**
   * DeepHash panics exactly when some pointer that it comes to leads back to itself: sharing without a
   * cycle is accepted.
   */
  lemma PanicsExactlyOnCycles(v: Value, heap: Heap)
    ensures Output(v, heap, {}).None? <==>
              exists path :: IsChain(path, v, heap) && path[|path| - 1] in path[..|path| - 1]
  {
    if Output(v, heap, {}).None? {
      PanicIsRecursion(v, heap, {});
      var path :| Returns(path, v, heap, {});
      assert IsChain(path, v, heap) && path[|path| - 1] in path[..|path| - 1];
    }
    if path :| IsChain(path, v, heap) && path[|path| - 1] in path[..|path| - 1] {
      assert Returns(path, v, heap, {});
      RecursionPanics(path, v, heap, {});
    }
  }

  // ---- What the hash does not see ----

  /** Without integers of the platform's size, and with lists in lists spliced into the outer list. */
  ghost function Stripped(v: Value): Value
    decreases v, 1, 0
  {
    match v
    case PlatformInt(_) => List([])
    case List(_) => List(Spliced(v, PartCount(v)))
    case Struct(_) => Struct(StrippedFields(v, PartCount(v)))
    case Map(entries) => Map(map k | k in entries :: Stripped(entries[k]))
    case _ => v
  }

  ghost function Spliced(v: Value, n: nat): seq<Value>
    requires n <= PartCount(v)
    decreases v, 0, n
  {
    if n == 0 then [] else Spliced(v, n - 1) + AsItems(Stripped(Part(v, n - 1)))
  }

  function AsItems(v: Value): seq<Value> { if v.List? then v.items else [v] }

  ghost function StrippedFields(v: Value, n: nat): (fields: seq<Field>)
    requires v.Struct? && n <= PartCount(v)
    ensures |fields| == n
    ensures forall i :: 0 <= i < n ==> fields[i] == Field(v.fields[i].name, Stripped(v.fields[i].value))
    decreases v, 0, n
  {
    if n == 0 then []
    else StrippedFields(v, n - 1) + [Field(v.fields[n - 1].name, Stripped(Part(v, n - 1)))]
  }

  ghost function StrippedHeap(heap: Heap): Heap { map a | a in heap :: Stripped(heap[a]) }

  /** One output after the other, if there are both. */
  function Join(a: Option<string>, b: Option<string>): Option<string> {
    if a.None? || b.None? then None else Some(a.value + b.value)
  }

  lemma JoinJoin(a: Option<string>, b: Option<string>, c: Option<string>)
    ensures Join(Join(a, b), c) == Join(a, Join(b, c))
    ensures Join(a, Some("")) == a
  {
    if a.Some? && b.Some? && c.Some? { assert (a.value + b.value) + c.value == a.value + (b.value + c.value); }
    if a.Some? { assert a.value + "" == a.value; }
  }

  lemma ListPrefix(xs: seq<Value>, ys: seq<Value>, heap: Heap, visited: set<nat>, n: nat)
    requires n <= |xs|
    ensures PartsOutput(List(xs + ys), heap, visited, n) == PartsOutput(List(xs), heap, visited, n)
    decreases n
  {
    if n > 0 {
      ListPrefix(xs, ys, heap, visited, n - 1);
      assert Part(List(xs + ys), n - 1) == Part(List(xs), n - 1);
      hide Output;
    }
  }

  lemma ListNext(xs: seq<Value>, y: Value, heap: Heap, visited: set<nat>)
    ensures Output(List(xs + [y]), heap, visited) == Join(Output(List(xs), heap, visited), Output(y, heap, visited))
  {
    ListPrefix(xs, [y], heap, visited, |xs|);
    OutputOfParts(List(xs), heap, visited);
    OutputOfParts(List(xs + [y]), heap, visited);
    hide Output;
    var v := List(xs + [y]);
    assert PartCount(v) == |xs| + 1 && Part(v, |xs|) == y && Label(v, |xs|) == "";
    var before := PartsOutput(v, heap, visited, |xs|);
    if before.Some? { assert before.value + "" == before.value; }
  }

  lemma {:induction false} ListConcat(xs: seq<Value>, ys: seq<Value>, heap: Heap, visited: set<nat>)
    ensures Output(List(xs + ys), heap, visited) == Join(Output(List(xs), heap, visited), Output(List(ys), heap, visited))
    decreases |ys|
  {
    if ys == [] {
      OutputOfParts(List(ys), heap, visited);
      hide Output;
      assert PartCount(List(ys)) == 0 && xs + ys == xs;
      JoinJoin(Output(List(xs), heap, visited), Some(""), Some(""));
    } else {
      var rest, y := ys[..|ys| - 1], ys[|ys| - 1];
      hide Output, PartsOutput, Join;
      ListConcat(xs, rest, heap, visited);
      ListNext(xs + rest, y, heap, visited);
      ListNext(rest, y, heap, visited);
      assert xs + ys == (xs + rest) + [y] && ys == rest + [y];
      JoinJoin(Output(List(xs), heap, visited), Output(List(rest), heap, visited), Output(y, heap, visited));
    }
  }

  lemma SpliceOutput(xs: seq<Value>, v: Value, heap: Heap, visited: set<nat>)
    ensures Output(List(xs + AsItems(v)), heap, visited) == Join(Output(List(xs), heap, visited), Output(v, heap, visited))
  {
    hide Output;
    if v.List? { ListConcat(xs, v.items, heap, visited); } else { ListNext(xs, v, heap, visited); }
  }

  lemma StrippedParts(v: Value)
    requires v.Struct? || v.Map?
    ensures PartCount(Stripped(v)) == PartCount(v)
    ensures forall i :: 0 <= i < PartCount(v) ==>
              Label(Stripped(v), i) == Label(v, i) && Part(Stripped(v), i) == Stripped(Part(v, i))
  {
    if v.Map? {
      assert Stripped(v).entries.Keys == v.entries.Keys;
      hide IsSorted;
    }
  }

  lemma PartsNext(v: Value, heap: Heap, visited: set<nat>, n: nat)
    requires 0 < n <= PartCount(v)
    ensures PartsOutput(v, heap, visited, n) ==
            Join(Join(PartsOutput(v, heap, visited, n - 1), Some(Label(v, n - 1))), Output(Part(v, n - 1), heap, visited))
  {
  }

  /**
   * The hash of a value does not change when integers of the platform's size are dropped and nested lists are
   * spliced, anywhere in the value and in what it points to: the indices that separate list items, and all
   * int and uint values, are not written, against the comment in the source.
   */
  lemma {:induction false} StrippedHashesAlike(v: Value, heap: Heap, visited: set<nat>)
    ensures Output(Stripped(v), StrippedHeap(heap), visited) == Output(v, heap, visited)
    decreases Unvisited(heap, visited), v, 1, 0
  {
    match v
    case Pointer(a) =>
      if a !in visited && a in heap {
        assert a in Unvisited(heap, visited);
        StrippedHashesAlike(heap[a], heap, visited + {a});
        hide *;
        OutputOfPointer(a, heap, visited);
        OutputOfPointer(a, StrippedHeap(heap), visited);
        StrippedOfPointer(a, heap);
      }
    case PlatformInt(i) =>
      OutputOfParts(List([]), StrippedHeap(heap), visited);
      assert PartCount(List([])) == 0;
    case List(_) =>
      SplicedHashesAlike(v, heap, visited, PartCount(v));
      OutputOfParts(v, heap, visited);
    case Struct(_) => PartsHashAlike(v, heap, visited, PartCount(v)); StrippedParts(v);
    case Map(_) => PartsHashAlike(v, heap, visited, PartCount(v)); StrippedParts(v);
    case _ =>
  }

  lemma OutputOfPointer(a: nat, heap: Heap, visited: set<nat>)
    requires a !in visited && a in heap
    ensures Output(Pointer(a), heap, visited) == Output(heap[a], heap, visited + {a})
  {
  }

  lemma StrippedOfPointer(a: nat, heap: Heap)
    requires a in heap
    ensures Stripped(Pointer(a)) == Pointer(a) && a in StrippedHeap(heap) && StrippedHeap(heap)[a] == Stripped(heap[a])
  {
  }

  lemma {:induction false} SplicedHashesAlike(v: Value, heap: Heap, visited: set<nat>, n: nat)
    requires v.List? && n <= PartCount(v)
    ensures Output(List(Spliced(v, n)), StrippedHeap(heap), visited) == PartsOutput(v, heap, visited, n)
    decreases Unvisited(heap, visited), v, 0, n
  {
    if n == 0 {
      OutputOfParts(List([]), StrippedHeap(heap), visited);
      assert PartCount(List([])) == 0;
    } else {
      SplicedHashesAlike(v, heap, visited, n - 1);
      StrippedHashesAlike(Part(v, n - 1), heap, visited);
      SpliceOutput(Spliced(v, n - 1), Stripped(Part(v, n - 1)), StrippedHeap(heap), visited);
      PartsNext(v, heap, visited, n);
      assert Label(v, n - 1) == "";
      JoinJoin(PartsOutput(v, heap, visited, n - 1), None, None);
      hide Output, PartsOutput, Join, StrippedHeap;
    }
  }

  lemma {:induction false} PartsHashAlike(v: Value, heap: Heap, visited: set<nat>, n: nat)
    requires (v.Struct? || v.Map?) && n <= PartCount(v)
    ensures n <= PartCount(Stripped(v))
    ensures PartsOutput(Stripped(v), StrippedHeap(heap), visited, n) == PartsOutput(v, heap, visited, n)
    decreases Unvisited(heap, visited), v, 0, n
  {
    StrippedParts(v);
    if n > 0 {
      PartsHashAlike(v, heap, visited, n - 1);
      StrippedHashesAlike(Part(v, n - 1), heap, visited);
      hide Output, PartsOutput, Join, StrippedHeap, Stripped, Label, Part;
      PartsNext(v, heap, visited, n);
      PartsNext(Stripped(v), StrippedHeap(heap), visited, n);
    }
  }

  /** So values that differ in nothing else have the same hash. */
  lemma IntegersAndNestingAreIgnored(v: Value, v': Value, heap: Heap, heap': Heap)
    requires Stripped(v) == Stripped(v') && StrippedHeap(heap) == StrippedHeap(heap')
    ensures Output(v, heap, {}) == Output(v', heap', {})
  {
    StrippedHashesAlike(v, heap, {});
    StrippedHashesAlike(v', heap', {});
  }

  // ---- What the hash sees ----

  /** What every kind of leaf writes. */
  lemma LeavesAre(heap: Heap, visited: set<nat>, s: string, i: int)
    ensures Output(Invalid, heap, visited) == Some([0 as char])
    ensures Output(Bool(false), heap, visited) == Some([0 as char]) && Output(Bool(true), heap, visited) == Some([1 as char])
    ensures Output(FixedSize(s), heap, visited) == Some(s) && Output(Text(s), heap, visited) == Some(s)
    ensures Output(PlatformInt(i), heap, visited) == Some("")
  {
  }

  /** So leaves of one kind write the same only if they are the same. */
  lemma SameLeaves(a: string, b: string, p: bool, q: bool, heap: Heap, visited: set<nat>)
    ensures Output(Text(a), heap, visited) == Output(Text(b), heap, visited) <==> a == b
    ensures Output(FixedSize(a), heap, visited) == Output(FixedSize(b), heap, visited) <==> a == b
    ensures Output(Bool(p), heap, visited) == Output(Bool(q), heap, visited) <==> p == q
  {
    assert [1 as char][0] != [0 as char][0];
  }

  lemma NothingIsWritten(v: Value, heap: Heap, visited: set<nat>)
    requires v in {List([]), Struct([]), Map(map[])}
    ensures Output(v, heap, visited) == Some("")
  {
    OutputOfParts(v, heap, visited);
    hide Output;
  }

  /** A pointer writes what it points to, unless the traversal is already there; nil writes a zero. */
  lemma PointersAre(a: nat, heap: Heap, visited: set<nat>)
    ensures a in visited ==> Output(Pointer(a), heap, visited).None?
    ensures a !in visited && a !in heap ==> Output(Pointer(a), heap, visited) == Some([0 as char])
    ensures a !in visited && a in heap ==> Output(Pointer(a), heap, visited) == Output(heap[a], heap, visited + {a})
  {
  }

  lemma StructPrefix(fs: seq<Field>, f: Field, heap: Heap, visited: set<nat>, n: nat)
    requires n <= |fs|
    ensures PartsOutput(Struct(fs + [f]), heap, visited, n) == PartsOutput(Struct(fs), heap, visited, n)
    decreases n
  {
    if n > 0 {
      StructPrefix(fs, f, heap, visited, n - 1);
      assert Part(Struct(fs + [f]), n - 1) == Part(Struct(fs), n - 1) && Label(Struct(fs + [f]), n - 1) == Label(Struct(fs), n - 1);
      hide Output;
    }
  }

  /** A structure writes its fields in order, each one's name first. */
  lemma StructNext(fs: seq<Field>, f: Field, heap: Heap, visited: set<nat>)
    ensures Output(Struct(fs + [f]), heap, visited)
            == Join(Join(Output(Struct(fs), heap, visited), Some(f.name)), Output(f.value, heap, visited))
  {
    StructPrefix(fs, f, heap, visited, |fs|);
    OutputOfParts(Struct(fs), heap, visited);
    OutputOfParts(Struct(fs + [f]), heap, visited);
    hide Output;
    var v := Struct(fs + [f]);
    assert PartCount(v) == |fs| + 1 && Part(v, |fs|) == f.value && Label(v, |fs|) == f.name;
    PartsNext(v, heap, visited, |fs| + 1);
  }

  lemma GreatestIsLast(keys: set<string>, k: string)
    requires forall j :: j in keys ==> StringLess(j, k)
    ensures SortedKeys(keys + {k}) == SortedKeys(keys) + [k]
  {
    var sorted := SortedKeys(keys) + [k];
    assert Ascending(sorted) by {
      forall i | 0 <= i < |sorted| - 1 ensures StringLess(sorted[i], k) { assert SortedKeys(keys)[i] in keys; }
      hide StringLess;
    }
    AscendingIsUnique(SortedKeys(keys + {k}), sorted);
  }

  lemma MapPrefix(m: map<string, Value>, k: string, w: Value, heap: Heap, visited: set<nat>, n: nat)
    requires k !in m && SortedKeys(m.Keys + {k}) == SortedKeys(m.Keys) + [k] && n <= PartCount(Map(m))
    ensures PartCount(Map(m[k := w])) == PartCount(Map(m)) + 1
    ensures PartsOutput(Map(m[k := w]), heap, visited, n) == PartsOutput(Map(m), heap, visited, n)
    decreases n
  {
    assert m[k := w].Keys == m.Keys + {k};
    if n > 0 {
      MapPrefix(m, k, w, heap, visited, n - 1);
      assert SortedKeys(m.Keys)[n - 1] in m;
      assert Part(Map(m[k := w]), n - 1) == Part(Map(m), n - 1) && Label(Map(m[k := w]), n - 1) == Label(Map(m), n - 1);
    }
    hide Output, IsSorted, StringLess;
  }

  /** A map writes its entries by ascending keys, each one's key first. */
  lemma MapNext(m: map<string, Value>, k: string, w: Value, heap: Heap, visited: set<nat>)
    requires k !in m && forall j :: j in m ==> StringLess(j, k)
    ensures Output(Map(m[k := w]), heap, visited)
            == Join(Join(Output(Map(m), heap, visited), Some(k)), Output(w, heap, visited))
  {
    GreatestIsLast(m.Keys, k);
    assert m[k := w].Keys == m.Keys + {k};
    var n := PartCount(Map(m));
    MapPrefix(m, k, w, heap, visited, n);
    OutputOfParts(Map(m), heap, visited);
    OutputOfParts(Map(m[k := w]), heap, visited);
    assert Part(Map(m[k := w]), n) == w && Label(Map(m[k := w]), n) == k;
    PartsNext(Map(m[k := w]), heap, visited, n + 1);
    hide Output, PartsOutput, IsSorted, StringLess;
  }

  /** Two different leaves of the same kind; not of the platform's integers. */
  predicate TellApart(x: Value, y: Value) {
    x != y && ((x.Text? && y.Text?) || (x.Bool? && y.Bool?) || (x.FixedSize? && y.FixedSize?))
  }

  /** Different texts, truth values and numbers write different bytes. */
  lemma LeavesAreSeen(x: Value, y: Value, heap: Heap, visited: set<nat>)
    requires TellApart(x, y)
    ensures Output(x, heap, visited).Some? && Output(y, heap, visited).Some?
    ensures Output(x, heap, visited) != Output(y, heap, visited)
  {
    if x.Bool? { assert [1 as char][0] != [0 as char][0]; }
  }

  /** Two lists, structures or maps that differ in one item, in the value of one field or in that of one key at most. */
  ghost predicate OtherItemsStay(v: Value, w: Value, i: int) {
    && v.List? && w.List? && |w.items| == |v.items| && 0 <= i < |v.items|
    && forall j :: 0 <= j < |v.items| && j != i ==> w.items[j] == v.items[j]
  }

  ghost predicate OtherFieldsStay(v: Value, w: Value, i: int) {
    && v.Struct? && w.Struct? && |w.fields| == |v.fields| && 0 <= i < |v.fields| && w.fields[i].name == v.fields[i].name
    && forall j :: 0 <= j < |v.fields| && j != i ==> w.fields[j] == v.fields[j]
  }

  ghost predicate OtherEntriesStay(v: Value, w: Value, k: string) {
    && v.Map? && w.Map? && w.entries.Keys == v.entries.Keys && k in v.entries
    && forall j :: j in v.entries && j != k ==> w.entries[j] == v.entries[j]
  }

  /** w is v with y in the place of one x, at any depth but not behind a pointer. */
  ghost predicate Replaced(v: Value, w: Value, x: Value, y: Value) {
    || (v == x && w == y)
    || (exists i :: OtherItemsStay(v, w, i) && Replaced(v.items[i], w.items[i], x, y))
    || (exists i :: OtherFieldsStay(v, w, i) && Replaced(v.fields[i].value, w.fields[i].value, x, y))
    || (exists k :: OtherEntriesStay(v, w, k) && Replaced(v.entries[k], w.entries[k], x, y))
  }

  /** All parts but one are the same. */
  ghost predicate OtherPartsStay(v: Value, w: Value, i: nat) {
    && PartCount(w) == PartCount(v) && i < PartCount(v)
    && forall j :: 0 <= j < PartCount(v) ==> Label(w, j) == Label(v, j) && (j != i ==> Part(w, j) == Part(v, j))
  }

  lemma ReplacedPart(v: Value, w: Value, x: Value, y: Value) returns (i: nat)
    requires Replaced(v, w, x, y) && !(v == x && w == y)
    ensures (v.List? && w.List?) || (v.Struct? && w.Struct?) || (v.Map? && w.Map?)
    ensures OtherPartsStay(v, w, i) && Replaced(Part(v, i), Part(w, i), x, y)
  {
    hide Replaced, OtherPartsStay, Part;
    ReplacedCases(v, w, x, y);
    if k :| OtherItemsStay(v, w, k) && Replaced(v.items[k], w.items[k], x, y) {
      i := k;
      ReplacedItem(v, w, k);
    } else if k :| OtherFieldsStay(v, w, k) && Replaced(v.fields[k].value, w.fields[k].value, x, y) {
      i := k;
      ReplacedField(v, w, k);
    } else {
      var k :| OtherEntriesStay(v, w, k) && Replaced(v.entries[k], w.entries[k], x, y);
      i := ReplacedEntry(v, w, k);
    }
  }

  lemma ReplacedCases(v: Value, w: Value, x: Value, y: Value)
    requires Replaced(v, w, x, y) && !(v == x && w == y)
    ensures (exists i :: OtherItemsStay(v, w, i) && Replaced(v.items[i], w.items[i], x, y))
         || (exists i :: OtherFieldsStay(v, w, i) && Replaced(v.fields[i].value, w.fields[i].value, x, y))
         || (exists k :: OtherEntriesStay(v, w, k) && Replaced(v.entries[k], w.entries[k], x, y))
  {
  }

  lemma ReplacedItem(v: Value, w: Value, i: nat)
    requires OtherItemsStay(v, w, i)
    ensures OtherPartsStay(v, w, i) && Part(v, i) == v.items[i] && Part(w, i) == w.items[i]
  {
  }

  lemma ReplacedField(v: Value, w: Value, i: nat)
    requires OtherFieldsStay(v, w, i)
    ensures OtherPartsStay(v, w, i) && Part(v, i) == v.fields[i].value && Part(w, i) == w.fields[i].value
  {
  }

  lemma ReplacedEntry(v: Value, w: Value, k: string) returns (i: nat)
    requires OtherEntriesStay(v, w, k)
    ensures OtherPartsStay(v, w, i) && Part(v, i) == v.entries[k] && Part(w, i) == w.entries[k]
  {
    var keys := SortedKeys(v.entries.Keys);
    i :| 0 <= i < |keys| && keys[i] == k;
    forall j | 0 <= j < |keys| && j != i ensures keys[j] != k { LessIsTotal(k, k); }
    hide StringLess;
  }

  lemma JoinCancels(a: Option<string>, b: Option<string>, c: Option<string>)
    ensures a.Some? ==> (Join(a, b) == Join(a, c) <==> b == c)
    ensures a.Some? ==> (Join(b, a) == Join(c, a) <==> b == c)
  {
    if a.Some? && b.Some? && c.Some? {
      var p, q, r := a.value, b.value, c.value;
      assert (p + q)[|p|..] == q && (p + r)[|p|..] == r && (q + p)[..|q|] == q && (r + p)[..|r|] == r;
    }
  }

  /** How much longer the second output is. */
  function Longer(a: Option<string>, b: Option<string>): int { if a.Some? && b.Some? then |b.value| - |a.value| else 0 }

  lemma {:induction false} PartsReplaced(v: Value, w: Value, i: nat, heap: Heap, visited: set<nat>, n: nat)
    requires OtherPartsStay(v, w, i) && n <= PartCount(v) && PartsOutput(v, heap, visited, n).Some?
    ensures n <= i ==> PartsOutput(w, heap, visited, n) == PartsOutput(v, heap, visited, n)
    ensures n > i ==>
              && (PartsOutput(w, heap, visited, n) == PartsOutput(v, heap, visited, n)
                  <==> Output(Part(w, i), heap, visited) == Output(Part(v, i), heap, visited))
              && Output(Part(v, i), heap, visited).Some?
              && (PartsOutput(w, heap, visited, n).Some? <==> Output(Part(w, i), heap, visited).Some?)
              && Longer(PartsOutput(v, heap, visited, n), PartsOutput(w, heap, visited, n))
                 == Longer(Output(Part(v, i), heap, visited), Output(Part(w, i), heap, visited))
    decreases n
  {
    if n > 0 {
      PartsNext(v, heap, visited, n);
      PartsNext(w, heap, visited, n);
      hide Output, PartsOutput, Part, Label;
      PartsReplaced(v, w, i, heap, visited, n - 1);
      var before, before', name := PartsOutput(v, heap, visited, n - 1), PartsOutput(w, heap, visited, n - 1), Some(Label(v, n - 1));
      JoinCancels(name, before, before');
      JoinCancels(Join(before, name), Output(Part(v, n - 1), heap, visited), Output(Part(w, n - 1), heap, visited));
      JoinCancels(Output(Part(v, n - 1), heap, visited), Join(before, name), Join(before', name));
    }
  }

  /** The output changes exactly when that of the part changes, wherever it stands; and so does its length. */
  lemma {:induction false} ReplacingIsSeen(v: Value, w: Value, x: Value, y: Value, heap: Heap, visited: set<nat>)
    requires Replaced(v, w, x, y) && Output(v, heap, visited).Some?
    ensures Output(w, heap, visited) == Output(v, heap, visited) <==> Output(y, heap, visited) == Output(x, heap, visited)
    ensures Output(x, heap, visited).Some? && (Output(w, heap, visited).Some? <==> Output(y, heap, visited).Some?)
    ensures Longer(Output(v, heap, visited), Output(w, heap, visited)) == Longer(Output(x, heap, visited), Output(y, heap, visited))
    decreases v
  {
    if !(v == x && w == y) {
      var i := ReplacedPart(v, w, x, y);
      OutputOfParts(v, heap, visited);
      OutputOfParts(w, heap, visited);
      hide Replaced, Output, PartsOutput, Part, Label, OtherPartsStay;
      ReplacedMeans(v, w, i);
      PartsReplaced(v, w, i, heap, visited, PartCount(v));
      ReplacingIsSeen(Part(v, i), Part(w, i), x, y, heap, visited);
    }
    hide *;
  }

  /** So a change of one text, truth value or number of fixed size in a value changes what is written. */
  lemma LeafChangesAreSeen(v: Value, w: Value, x: Value, y: Value, heap: Heap, visited: set<nat>)
    requires Replaced(v, w, x, y) && TellApart(x, y) && Output(v, heap, visited).Some?
    ensures Output(w, heap, visited).Some? && Output(w, heap, visited) != Output(v, heap, visited)
  {
    LeavesAreSeen(x, y, heap, visited);
    ReplacingIsSeen(v, w, x, y, heap, visited);
    hide *;
  }

  lemma ReplacedMeans(v: Value, w: Value, i: nat)
    requires OtherPartsStay(v, w, i)
    ensures PartCount(w) == PartCount(v) && i < PartCount(v) && Part(v, i) < v
  {
  }

  // ---- Behind pointers ----

  /** The traversal comes to the cell c. */
  ghost predicate Reaches(v: Value, heap: Heap, visited: set<nat>, c: nat)
    decreases Unvisited(heap, visited), v, 1, 0
  {
    if v.Pointer? then
      && v.address !in visited && v.address in heap
      && (v.address == c || Reaches(heap[v.address], heap, visited + {v.address}, c))
    else PartsReach(v, heap, visited, c, PartCount(v))
  }

  ghost predicate PartsReach(v: Value, heap: Heap, visited: set<nat>, c: nat, n: nat)
    requires n <= PartCount(v)
    decreases Unvisited(heap, visited), v, 0, n
  {
    n > 0 && (PartsReach(v, heap, visited, c, n - 1) || Reaches(Part(v, n - 1), heap, visited, c))
  }

  /** Two outputs that are the same, or else differ, and by their lengths if d is not zero. */
  predicate Shifted(a: Option<string>, b: Option<string>, d: int, changed: bool) {
    && a.Some? && b.Some?
    && (if changed then b != a else b == a)
    && (changed && d == 0 ==> |b.value| == |a.value|)
    && (changed && d > 0 ==> |b.value| > |a.value|)
    && (changed && d < 0 ==> |b.value| < |a.value|)
  }

  lemma ShiftedJoin(a: Option<string>, a': Option<string>, b: Option<string>, b': Option<string>, d: int, ca: bool, cb: bool)
    requires Shifted(a, a', d, ca) && Shifted(b, b', d, cb)
    ensures Shifted(Join(a, b), Join(a', b'), d, ca || cb)
  {
    var p, p', q, q' := a.value, a'.value, b.value, b'.value;
    if |p| == |p'| {
      assert (p + q)[..|p|] == p && (p' + q')[..|p|] == p' && (p + q)[|p|..] == q && (p' + q')[|p|..] == q';
    }
  }

  /** The length of what a leaf writes. */
  function Size(v: Value): int { |Leaf(v)| }

  lemma {:induction false} CellIsSeen(v: Value, heap: Heap, visited: set<nat>, c: nat, w: Value, x: Value, y: Value)
    requires c in heap && Replaced(heap[c], w, x, y) && TellApart(x, y) && Output(v, heap, visited).Some?
    ensures Shifted(Output(v, heap, visited), Output(v, heap[c := w], visited), Size(y) - Size(x), Reaches(v, heap, visited, c))
    decreases Unvisited(heap, visited), v, 1, 0
  {
    if v.Pointer? {
      var a := v.address;
      if a in heap && a !in visited {
        assert a in Unvisited(heap, visited);
        CellIsSeen(heap[a], heap, visited + {a}, c, w, x, y);
        if a == c { InTheCell(heap, visited + {c}, c, w, x, y); }
      }
    } else if v.List? || v.Struct? || v.Map? {
      PartsAreSeen(v, heap, visited, c, w, x, y, PartCount(v));
      OutputOfParts(v, heap, visited);
      OutputOfParts(v, heap[c := w], visited);
      hide Output, PartsOutput;
    }
    hide Replaced, TellApart, Size, PartsReach, PartsOutput;
  }

  lemma {:induction false} PartsAreSeen(
    v: Value, heap: Heap, visited: set<nat>, c: nat, w: Value, x: Value, y: Value, n: nat)
    requires c in heap && Replaced(heap[c], w, x, y) && TellApart(x, y)
    requires !v.Pointer? && n <= PartCount(v) && PartsOutput(v, heap, visited, n).Some?
    ensures Shifted(PartsOutput(v, heap, visited, n), PartsOutput(v, heap[c := w], visited, n), Size(y) - Size(x),
                    PartsReach(v, heap, visited, c, n))
    decreases Unvisited(heap, visited), v, 0, n
  {
    var h' := heap[c := w];
    if n > 0 {
      PartsNext(v, heap, visited, n);
      PartsNext(v, h', visited, n);
      PartsAreSeen(v, heap, visited, c, w, x, y, n - 1);
      CellIsSeen(Part(v, n - 1), heap, visited, c, w, x, y);
      hide Output, PartsOutput, Reaches, Replaced, TellApart, Size;
      var before, before', name := PartsOutput(v, heap, visited, n - 1), PartsOutput(v, h', visited, n - 1), Some(Label(v, n - 1));
      ShiftedJoin(before, before', name, name, Size(y) - Size(x), PartsReach(v, heap, visited, c, n - 1), false);
      ShiftedJoin(Join(before, name), Join(before', name), Output(Part(v, n - 1), heap, visited),
                  Output(Part(v, n - 1), h', visited), Size(y) - Size(x), PartsReach(v, heap, visited, c, n - 1),
                  Reaches(Part(v, n - 1), heap, visited, c));
      hide Shifted, Join;
    }
  }

  /** Inside the cell itself, which the traversal does not enter again. */
  lemma InTheCell(heap: Heap, visited: set<nat>, c: nat, w: Value, x: Value, y: Value)
    requires c in heap && c in visited && Replaced(heap[c], w, x, y) && TellApart(x, y) && Output(heap[c], heap, visited).Some?
    requires Shifted(Output(heap[c], heap, visited), Output(heap[c], heap[c := w], visited), Size(y) - Size(x),
                     Reaches(heap[c], heap, visited, c))
    ensures Shifted(Output(heap[c], heap, visited), Output(w, heap[c := w], visited), Size(y) - Size(x), true)
  {
    VisitedIsNotReached(heap[c], heap, visited, c);
    ReplacingIsSeen(heap[c], w, x, y, heap[c := w], visited);
    LeavesAreSeen(x, y, heap[c := w], visited);
    LeafSizes(x, y, heap[c := w], visited);
    hide Output, Replaced, TellApart, Size, Reaches;
  }

  lemma LeafSizes(x: Value, y: Value, heap: Heap, visited: set<nat>)
    requires TellApart(x, y)
    ensures Longer(Output(x, heap, visited), Output(y, heap, visited)) == Size(y) - Size(x)
  {
  }

  lemma {:induction false} VisitedIsNotReached(v: Value, heap: Heap, visited: set<nat>, c: nat)
    requires c in visited
    ensures !Reaches(v, heap, visited, c)
    decreases Unvisited(heap, visited), v, 1, 0
  {
    if v.Pointer? {
      if v.address !in visited && v.address in heap {
        assert v.address in Unvisited(heap, visited);
        VisitedIsNotReached(heap[v.address], heap, visited + {v.address}, c);
      }
    } else {
      VisitedPartsDoNotReach(v, heap, visited, c, PartCount(v));
    }
  }

  lemma {:induction false} VisitedPartsDoNotReach(v: Value, heap: Heap, visited: set<nat>, c: nat, n: nat)
    requires c in visited && !v.Pointer? && n <= PartCount(v)
    ensures !PartsReach(v, heap, visited, c, n)
    decreases Unvisited(heap, visited), v, 0, n
  {
    if n > 0 {
      VisitedPartsDoNotReach(v, heap, visited, c, n - 1);
      VisitedIsNotReached(Part(v, n - 1), heap, visited, c);
      hide Reaches;
    }
  }

  ghost predicate LeadsTo(path: seq<nat>, v: Value, heap: Heap, c: nat) {
    IsChain(path, v, heap) && path[|path| - 1] == c
  }

  /** Without a panic, the traversal comes to every cell that a chain of pointers leads to. */
  lemma {:induction false} ChainIsFollowed(path: seq<nat>, v: Value, heap: Heap, visited: set<nat>, c: nat)
    requires LeadsTo(path, v, heap, c) && c in heap && Output(v, heap, visited).Some?
    ensures Reaches(v, heap, visited, c)
    decreases Unvisited(heap, visited), v
  {
    if v.Pointer? {
      var a := v.address;
      assert path[0] == a;
      assert a in heap by { if |path| > 1 { assert Leads(heap, path[0], path[0 + 1]); } }
      if a != c {
        assert a in Unvisited(heap, visited);
        ChainRest(path, a, heap, c);
        ChainIsFollowed(path[1..], heap[a], heap, visited + {a}, c);
      }
    } else {
      var i := PartWithAddress(v, PartCount(v), path[0]);
      if Output(Part(v, i), heap, visited).None? { PartsFail(v, heap, visited, i, PartCount(v)); }
      ChainIsFollowed(path, Part(v, i), heap, visited, c);
      PartReaches(v, heap, visited, c, i, PartCount(v));
    }
  }

  lemma ChainRest(path: seq<nat>, a: nat, heap: Heap, c: nat)
    requires LeadsTo(path, Pointer(a), heap, c) && a != c
    ensures a in heap && LeadsTo(path[1..], heap[a], heap, c)
  {
    var rest := path[1..];
    assert path[0] == a && Leads(heap, path[0], path[0 + 1]);
    forall i | 0 <= i < |rest| - 1 ensures Leads(heap, rest[i], rest[i + 1]) {
      assert rest[i] == path[i + 1] && rest[i + 1] == path[i + 1 + 1];
    }
  }

  lemma {:induction false} PartReaches(v: Value, heap: Heap, visited: set<nat>, c: nat, i: nat, n: nat)
    requires i < n <= PartCount(v) && Reaches(Part(v, i), heap, visited, c)
    ensures PartsReach(v, heap, visited, c, n)
    decreases n
  {
    hide Reaches;
    if i < n - 1 { PartReaches(v, heap, visited, c, i, n - 1); }
  }

  /** And only to these. */
  lemma {:induction false} ReachesByChain(v: Value, heap: Heap, visited: set<nat>, c: nat) returns (path: seq<nat>)
    requires Reaches(v, heap, visited, c)
    ensures LeadsTo(path, v, heap, c)
    decreases Unvisited(heap, visited), v, 1, 0
  {
    if v.Pointer? {
      var a := v.address;
      if a == c {
        path := [a];
      } else {
        assert a in Unvisited(heap, visited);
        var rest := ReachesByChain(heap[a], heap, visited + {a}, c);
        path := [a] + rest;
        ChainBefore(rest, a, heap, c);
      }
    } else {
      path := PartsReachByChain(v, heap, visited, c, PartCount(v));
    }
  }

  lemma {:induction false} PartsReachByChain(v: Value, heap: Heap, visited: set<nat>, c: nat, n: nat) returns (path: seq<nat>)
    requires !v.Pointer? && n <= PartCount(v) && PartsReach(v, heap, visited, c, n)
    ensures LeadsTo(path, v, heap, c)
    decreases Unvisited(heap, visited), v, 0, n
  {
    if PartsReach(v, heap, visited, c, n - 1) {
      path := PartsReachByChain(v, heap, visited, c, n - 1);
    } else {
      path := ReachesByChain(Part(v, n - 1), heap, visited, c);
      AddressesOfParts(v, PartCount(v), n - 1);
      hide Reaches, PartsReach;
    }
  }

  lemma ChainBefore(rest: seq<nat>, a: nat, heap: Heap, c: nat)
    requires a in heap && LeadsTo(rest, heap[a], heap, c)
    ensures LeadsTo([a] + rest, Pointer(a), heap, c)
  {
    var path := [a] + rest;
    forall i | 0 <= i < |path| - 1 ensures Leads(heap, path[i], path[i + 1]) {
      if i > 0 { assert Leads(heap, rest[i - 1], rest[i - 1 + 1]); }
    }
  }

  /**
   * A text, truth value or number of fixed size that is changed in a cell of the heap changes what is written,
   * for every value that leads to this cell by pointers, however often, and for no other.
   */
  lemma ChangesAreSeen(v: Value, heap: Heap, c: nat, w: Value, x: Value, y: Value)
    requires c in heap && Replaced(heap[c], w, x, y) && TellApart(x, y) && Output(v, heap, {}).Some?
    ensures Output(v, heap[c := w], {}).Some?
    ensures Output(v, heap[c := w], {}) != Output(v, heap, {}) <==>
              exists path :: IsChain(path, v, heap) && path[|path| - 1] == c
  {
    CellIsSeen(v, heap, {}, c, w, x, y);
    hide Output, Replaced, TellApart, Size, IsChain;
    if Reaches(v, heap, {}, c) {
      var path := ReachesByChain(v, heap, {}, c);
      assert LeadsTo(path, v, heap, c) && IsChain(path, v, heap) && path[|path| - 1] == c;
    }
    if path :| IsChain(path, v, heap) && path[|path| - 1] == c {
      assert LeadsTo(path, v, heap, c);
      ChainIsFollowed(path, v, heap, {}, c);
    }
  }

  /** But neighbouring texts run together: two lists of different texts can write the same. */
  lemma TextsRunTogether(a: string, b: string, heap: Heap)
    ensures Output(List([Text(a), Text(b)]), heap, {}) == Output(List([Text(a + b)]), heap, {}) == Some(a + b)
  {
    NothingIsWritten(List([]), heap, {});
    LeavesAre(heap, {}, a, 0);
    LeavesAre(heap, {}, b, 0);
    LeavesAre(heap, {}, a + b, 0);
    hide Output;
    ListNext([], Text(a), heap, {});
    ListNext([Text(a)], Text(b), heap, {});
    ListNext([], Text(a + b), heap, {});
    assert [] + [Text(a)] == [Text(a)] && [Text(a)] + [Text(b)] == [Text(a), Text(b)] && [] + [Text(a + b)] == [Text(a + b)];
    assert "" + a == a && "" + (a + b) == a + b;
  }
}
