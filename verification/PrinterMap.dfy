/** The index of known printers, rebuilt after every synchronisation (lib/concprintermap.go). */
module PrinterMap {
  import opened Collections
  import opened Printers

  /** The GCPID index: printers without an ID are left out, the last of an ID wins. */
  function ByID(ps: seq<Printer>): map<string, Printer> {
    if ps == [] then map[]
    else
      var last := ps[|ps| - 1];
      var rest := ByID(ps[..|ps| - 1]);
      if last.gcpID == "" then rest else rest[last.gcpID := last]
  }

  lemma {:induction false} ByIDIsLast(ps: seq<Printer>, id: string, i: nat)
    requires id != ""
    ensures i < |ps| && ps[i].gcpID == id && (forall j :: i < j < |ps| ==> ps[j].gcpID != id) ==>
              id in ByID(ps) && ByID(ps)[id] == ps[i]
    ensures (forall j :: 0 <= j < |ps| ==> ps[j].gcpID != id) ==> id !in ByID(ps)
    ensures "" !in ByID(ps)
  {
    if ps != [] { ByIDIsLast(ps[..|ps| - 1], id, i); }
  }

  predicate DistinctIDs(ps: seq<Printer>) {
    forall i, j :: 0 <= i < j < |ps| && ps[i].gcpID != "" ==> ps[i].gcpID != ps[j].gcpID
  }

  /** A slice lists an index, in some order. */
  ghost predicate Lists(ps: seq<Printer>, index: map<string, Printer>) {
    DistinctNames(ps) && ByName(ps) == index
  }

  lemma ByNameAppend(ps: seq<Printer>, p: Printer)
    ensures ByName(ps + [p]) == ByName(ps)[p.name := p]
  {
    assert (ps + [p])[..|ps|] == ps;
  }

  class ConcurrentPrinterMap {
    var byNativeName: map<string, Printer>
    var byGCPID: map<string, Printer>

    /** Every printer is stored under its own name. */
    predicate Valid()
      reads this
    {
      forall n :: n in byNativeName ==> byNativeName[n].name == n
    }

    constructor (printers: seq<Printer>)
      ensures Valid()
      ensures byNativeName == ByName(printers) && byGCPID == ByID(printers)
    {
      new;
      Refresh(printers);
    }

    method Refresh(newPrinters: seq<Printer>)
      modifies this
      ensures Valid()
      ensures byNativeName == ByName(newPrinters) && byGCPID == ByID(newPrinters)
    {
      var c: map<string, Printer> := map[];
      for i := 0 to |newPrinters|
        invariant c == ByName(newPrinters[..i])
      {
        assert newPrinters[..i + 1][..i] == newPrinters[..i];
        c := c[newPrinters[i].name := newPrinters[i]];
      }
      var g: map<string, Printer> := map[];
      for i := 0 to |newPrinters|
        invariant g == ByID(newPrinters[..i])
      {
        assert newPrinters[..i + 1][..i] == newPrinters[..i];
        if |newPrinters[i].gcpID| > 0 {
          g := g[newPrinters[i].gcpID := newPrinters[i]];
        }
      }
      assert newPrinters[..|newPrinters|] == newPrinters;
      byNativeName, byGCPID := c, g;
      ByNameMembers(newPrinters);
    }

    method GetByNativeName(name: string) returns (p: Option<Printer>)
      ensures p == if name in byNativeName then Some(byNativeName[name]) else None
    {
      return if name in byNativeName then Some(byNativeName[name]) else None;
    }

    method GetByGCPID(id: string) returns (p: Option<Printer>)
      ensures p == if id in byGCPID then Some(byGCPID[id]) else None
    {
      return if id in byGCPID then Some(byGCPID[id]) else None;
    }

    /** The order of a Go map iteration is unspecified. */
    method GetAll() returns (ps: seq<Printer>)
      requires Valid()
      ensures Lists(ps, byNativeName)
    {
      ps := [];
      var todo := byNativeName.Keys;
      while todo != {}
        invariant todo <= byNativeName.Keys
        invariant DistinctNames(ps)
        invariant forall i :: 0 <= i < |ps| ==> ps[i].name !in todo
        invariant ByName(ps) == byNativeName - todo
        decreases todo
      {
        hide ByName;
        var n :| n in todo;
        ByNameAppend(ps, byNativeName[n]);
        todo, ps := todo - {n}, ps + [byNativeName[n]];
      }
    }
  }

  lemma {:induction false} ByIDMembers(ps: seq<Printer>)
    requires DistinctIDs(ps)
    ensures forall p :: p in ps && p.gcpID != "" ==> p.gcpID in ByID(ps) && ByID(ps)[p.gcpID] == p
    ensures forall id :: id in ByID(ps) ==> id != "" && ByID(ps)[id] in ps && ByID(ps)[id].gcpID == id
  {
    if ps != [] {
      var rest := ps[..|ps| - 1];
      ByIDMembers(rest);
      forall p | p in ps && p.gcpID != "" ensures p.gcpID in ByID(ps) && ByID(ps)[p.gcpID] == p {
        if p != ps[|ps| - 1] {
          var i :| 0 <= i < |ps| && ps[i] == p;
          assert rest[i] == p;
        }
      }
    }
  }

  lemma {:induction false} ByNameIn(ps: seq<Printer>)
    requires DistinctNames(ps)
    ensures forall p :: p in ps ==> p.name in ByName(ps) && ByName(ps)[p.name] == p
  {
    ByNameAt(ps);
  }

  lemma {:induction false} DistinctOccurOnce(ps: seq<Printer>, p: Printer)
    requires DistinctNames(ps)
    ensures multiset(ps)[p] <= 1
  {
    if ps != [] {
      var rest, last := ps[..|ps| - 1], ps[|ps| - 1];
      DistinctOccurOnce(rest, p);
      assert ps == rest + [last];
      assert p == last ==> p !in rest by {
        assert forall i :: 0 <= i < |rest| ==> rest[i] == ps[i] && ps[i].name != ps[|rest|].name;
      }
    }
  }

  lemma ArrivalKeepsNamesDistinct(a: seq<Printer>, b: seq<Printer>)
    requires multiset(a) == multiset(b) && DistinctNames(a)
    ensures DistinctNames(b)
  {
    forall i, j | 0 <= i < j < |b| ensures b[i].name != b[j].name {
      assert b == b[..i] + [b[i]] + b[i + 1..j] + [b[j]] + b[j + 1..];
      assert b[i] in multiset(b) && b[j] in multiset(b);
      ByNameIn(a);
      DistinctOccurOnce(a, b[i]);
    }
  }

  /** An index by name is determined by which printers arrived. */
  lemma NameIndexIncludes(a: seq<Printer>, b: seq<Printer>, n: string)
    requires multiset(a) == multiset(b) && DistinctNames(b)
    requires n in ByName(a)
    ensures n in ByName(b) && ByName(b)[n] == ByName(a)[n]
  {
    ByNameMembers(a);
    var p := ByName(a)[n];
    assert p in multiset(a);
    assert p in b;
    ByNameIn(b);
  }

  /** So is an index by ID, given that distinct printers have distinct IDs. */
  lemma IDIndexIncludes(a: seq<Printer>, b: seq<Printer>, id: string)
    requires multiset(a) == multiset(b) && DistinctIDs(a) && DistinctIDs(b)
    requires id in ByID(a)
    ensures id in ByID(b) && ByID(b)[id] == ByID(a)[id]
  {
    ByIDMembers(a);
    var p := ByID(a)[id];
    assert p in multiset(a);
    assert p in b;
    ByIDMembers(b);
  }

  lemma ArrivalKeepsIDsDistinct(a: seq<Printer>, b: seq<Printer>)
    requires multiset(a) == multiset(b) && DistinctNames(a) && DistinctIDs(a)
    ensures DistinctIDs(b)
  {
    ArrivalKeepsNamesDistinct(a, b);
    forall i, j | 0 <= i < j < |b| && b[i].gcpID != "" ensures b[i].gcpID != b[j].gcpID {
      assert b[i] in multiset(b) && b[j] in multiset(b);
      assert b[i] in a && b[j] in a;
      ByIDMembers(a);
    }
  }

  /** The two indexes hold the same printers. */
  ghost predicate Agree(names: map<string, Printer>, ids: map<string, Printer>) {
    && (forall id :: id in ids ==> ids[id].gcpID == id && ids[id].name in names && names[ids[id].name] == ids[id])
    && (forall n :: n in names && names[n].gcpID != "" ==> names[n].gcpID in ids && ids[names[n].gcpID] == names[n])
  }

  lemma IndexesAgree(ps: seq<Printer>)
    requires DistinctNames(ps) && DistinctIDs(ps)
    ensures Agree(ByName(ps), ByID(ps))
  {
    hide DistinctNames, DistinctIDs;
    ByNameIn(ps);
    ByIDMembers(ps);
    forall n | n in ByName(ps) && ByName(ps)[n].gcpID != ""
      ensures ByName(ps)[n].gcpID in ByID(ps) && ByID(ps)[ByName(ps)[n].gcpID] == ByName(ps)[n]
    {
      ByNameMembers(ps);
    }
  }

  lemma NameIndexIsOrderFree(a: seq<Printer>, b: seq<Printer>)
    requires multiset(a) == multiset(b) && DistinctNames(a)
    ensures ByName(a) == ByName(b)
  {
    hide *;
    ArrivalKeepsNamesDistinct(a, b);
    forall n | n in ByName(a) ensures n in ByName(b) && ByName(b)[n] == ByName(a)[n] { NameIndexIncludes(a, b, n); }
    forall n | n in ByName(b) ensures n in ByName(a) { NameIndexIncludes(b, a, n); }
  }

  /**
   * Confluence of the fan-in: whatever order the printers arrive in, the two rebuilt indexes are the
   * same, and they agree with each other.
   */
  lemma RefreshIsOrderFree(a: seq<Printer>, b: seq<Printer>)
    requires multiset(a) == multiset(b) && DistinctNames(a) && DistinctIDs(a)
    ensures ByName(a) == ByName(b) && ByID(a) == ByID(b)
    ensures Agree(ByName(a), ByID(a))
  {
    hide *;
    NameIndexIsOrderFree(a, b);
    ArrivalKeepsIDsDistinct(a, b);
    forall id | id in ByID(a) ensures id in ByID(b) && ByID(b)[id] == ByID(a)[id] { IDIndexIncludes(a, b, id); }
    forall id | id in ByID(b) ensures id in ByID(a) { IDIndexIncludes(b, a, id); }
    IndexesAgree(a);
  }

  /** No two printers of an index share an ID; having none does not count. */
  ghost predicate IDsApart(index: map<string, Printer>) {
    forall n, n' :: n in index && n' in index && n != n' && index[n].gcpID != "" ==> index[n].gcpID != index[n'].gcpID
  }

  lemma ApartAreDistinct(ps: seq<Printer>)
    requires DistinctNames(ps) && IDsApart(ByName(ps))
    ensures DistinctIDs(ps)
  {
    ByNameAt(ps);
    hide ByName;
    forall i, j | 0 <= i < j < |ps| && ps[i].gcpID != "" ensures ps[i].gcpID != ps[j].gcpID {
      assert ps[i].name in ByName(ps) && ps[j].name in ByName(ps);
    }
  }

  /** The name index leaves no choice for an ID index that agrees with it. */
  lemma AgreeDetermines(names: map<string, Printer>, ids: map<string, Printer>, ids': map<string, Printer>)
    requires Agree(names, ids) && Agree(names, ids') && "" !in ids && "" !in ids'
    ensures ids == ids'
  {
    assert forall id :: id in ids ==> id in ids' && ids'[id] == ids[id];
    assert forall id :: id in ids' ==> id in ids;
  }
}
