/** The cache of translated PPD files (cups/ppdcache.go), and the descriptions that share its pointers (cdd/cdd.go). */
module PpdCache {
  import opened Collections

  // ---- Descriptions ----

  /** The fields of a description that Absorb copies; the lists and records behind them are never changed. */
  datatype Field =
    | SupportedContentType | PrintingSpeed | PWGRasterConfig | InputTrayUnit | OutputBinUnit | Marker | Cover | MediaPath
    | Color | Duplex | PageOrientation | Copies | Margins | DPI | FitToPage | PageRange | MediaSize | Collate | ReverseOrder

  datatype VendorCapability = VendorCapability(id: string, content: string)

  /** The target of the one pointer through which Absorb writes. */
  class VendorList {
    var items: seq<VendorCapability>

    constructor (items: seq<VendorCapability>)
      ensures this.items == items
    {
      this.items := items;
    }
  }

  /** A description, with its pointer to the vendor capabilities; a field that is nil is not in the map. */
  datatype Section = Section(vendor: VendorList?, fields: map<Field, string>)

  /** A description as a value. */
  datatype Description = Description(vendor: Option<seq<VendorCapability>>, fields: map<Field, string>)

  ghost function ValueOf(s: Section): Description
    reads s.vendor
  {
    Description(if s.vendor == null then None else Some(s.vendor.items), s.fields)
  }

  predicate HasID(items: seq<VendorCapability>, id: string) { exists i :: 0 <= i < |items| && items[i].id == id }

  function IsNew(known: seq<VendorCapability>): VendorCapability -> bool { (v: VendorCapability) => !HasID(known, v.id) }

  /** The items whose IDs are new, in order. */
  function NewItems(items: seq<VendorCapability>, known: seq<VendorCapability>): seq<VendorCapability> {
    Filter(IsNew(known), items)
  }

  /** What absorbing means for values. */
  function Absorbed(a: Description, b: Description): Description {
    Description(
      if b.vendor.None? then a.vendor
      else if a.vendor.None? || a.vendor.value == [] then b.vendor
      else Some(a.vendor.value + NewItems(b.vendor.value, a.vendor.value)),
      a.fields + b.fields)
  }

  /** Absorb writes to its receiver's list. */
  ghost predicate Writes(a: Description, b: Description) {
    && a.vendor.Some? && a.vendor.value != [] && b.vendor.Some?
    && exists i :: 0 <= i < |b.vendor.value| && !HasID(a.vendor.value, b.vendor.value[i].id)
  }

  lemma NothingNew(items: seq<VendorCapability>, known: seq<VendorCapability>)
    ensures NewItems(items, known) == [] <==> forall i :: 0 <= i < |items| ==> HasID(known, items[i].id)
  {
    forall i | 0 <= i < |items| ensures items[i] in NewItems(items, known) <==> !HasID(known, items[i].id) {
      FilterMembers(IsNew(known), items, items[i]);
    }
    if NewItems(items, known) != [] { FilterAt(IsNew(known), items, 0); }
    hide HasID, Filter;
  }

  /** Absorb's loop: the receiver's list gets the other one's new items. */
  method AppendNew(list: VendorList, items: seq<VendorCapability>)
    modifies list
    ensures list.items == old(list.items) + NewItems(items, old(list.items))
  {
    ghost var known := list.items;
    var keys := set v | v in list.items :: v.id;
    assert forall id :: id in keys <==> HasID(known, id) by {
      assert forall id :: HasID(known, id) ==> exists v :: v in known && v.id == id;
    }
    for i := 0 to |items|
      invariant list.items == known + NewItems(items[..i], known)
    {
      var v := items[i];
      FilterStep(IsNew(known), items, i);
      if v.id !in keys {
        list.items := list.items + [v];
      }
    }
    assert items[..|items|] == items;
  }

  /**
   * The absorbed fields win, the others stay. So does a non-empty list of vendor capabilities, with the absorbed ones
   * added whose IDs it does not have.
   */
  ghost predicate IsUnion(r: Description, a: Description, b: Description) {
    && (forall f :: f in r.fields <==> f in a.fields || f in b.fields)
    && (forall f :: f in r.fields ==> r.fields[f] == if f in b.fields then b.fields[f] else a.fields[f])
    && (b.vendor.None? ==> r.vendor == a.vendor)
    && (b.vendor.Some? && (a.vendor.None? || a.vendor.value == []) ==> r.vendor == b.vendor)
    && (b.vendor.Some? && a.vendor.Some? && a.vendor.value != [] ==>
          && r.vendor.Some? && a.vendor.value <= r.vendor.value
          && forall v :: v in r.vendor.value[|a.vendor.value|..] <==>
                           v in b.vendor.value && forall w :: w in a.vendor.value ==> w.id != v.id)
  }

  lemma AbsorbedIsUnion(a: Description, b: Description)
    ensures IsUnion(Absorbed(a, b), a, b)
  {
    if b.vendor.Some? && a.vendor.Some? {
      var known, items := a.vendor.value, b.vendor.value;
      assert (known + NewItems(items, known))[|known|..] == NewItems(items, known);
      forall v
        ensures v in NewItems(items, known) <==> v in items && forall w :: w in known ==> w.id != v.id
      {
        FilterMembers(IsNew(known), items, v);
        hide Filter;
      }
    }
    hide Filter;
  }

  /** Absorb; the receiver and the result are values that hold a pointer. */
  method Absorb(a: Section, b: Section) returns (r: Section)
    modifies a.vendor
    ensures ValueOf(r) == Absorbed(old(ValueOf(a)), old(ValueOf(b)))
    ensures IsUnion(ValueOf(r), old(ValueOf(a)), old(ValueOf(b)))
    ensures a.vendor != null ==> (a.vendor.items != old(a.vendor.items) <==> Writes(old(ValueOf(a)), old(ValueOf(b))))
    ensures r.vendor == if old(ValueOf(b)).vendor.Some? && (a.vendor == null || old(a.vendor.items) == [])
        then b.vendor else a.vendor
  {
    r := a;
    if b.vendor != null {
      if a.vendor == null || |a.vendor.items| == 0 {
        r := r.(vendor := b.vendor);
      } else {
        NothingNew(b.vendor.items, a.vendor.items);
        AppendNew(a.vendor, b.vendor.items);
      }
    }
    r := r.(fields := a.fields + b.fields);
    AbsorbedIsUnion(old(ValueOf(a)), old(ValueOf(b)));
    hide IsUnion;
  }

  // ---- The server ----

  /** A PPD file as the server has it, with the time of its last change. */
  datatype Ppd = Ppd(text: string, modtime: int)

  /** What translatePPD gets from a text. */
  datatype Translated = Translated(
    description: Description, manufacturer: string, model: string, duplexMap: map<string, string>)

  predicate Parsed(t: Translated) { t.manufacturer != "" && t.model != "" }

  /** What can go wrong besides the server not having the printer. */
  datatype IO = Works | NoConnection | NoFile

  // ---- The cache as values ----

  /** What an entry holds. */
  datatype Cached = Cached(content: Translated, modtime: int)

  /** An entry before its first refresh. */
  const EMPTY := Cached(Translated(Description(None, map[]), "", "", map[]), 0)

  /** What a refresh makes of an entry, or None for an error. */
  function Refreshed(c: Cached, ppd: Option<Ppd>, io: IO, translate: string -> Translated): Option<Cached> {
    if ppd.None? || io == NoConnection then None
    else if ppd.value.modtime <= c.modtime then Some(c)
    else if io == NoFile || !Parsed(translate(ppd.value.text)) then None
    else Some(Cached(translate(ppd.value.text), ppd.value.modtime))
  }

  type Contents = map<string, Cached>

  function Entered(m: Contents, name: string): Cached { if name in m then m[name] else EMPTY }

  /** What getPPDCacheEntry makes of the cache: a failed refresh leaves no entry. */
  function AfterGet(m: Contents, name: string, ppd: Option<Ppd>, io: IO, translate: string -> Translated): Contents {
    var c := Refreshed(Entered(m, name), ppd, io, translate);
    if c.None? then m - {name} else m[name := c.value]
  }

  // ---- The cache ----

  class Entry {
    var modtime: int
    var section: Section
    var manufacturer: string
    var model: string
    var duplexMap: map<string, string>

    ghost function Content(): Cached
      reads this, section.vendor
    {
      Cached(Translated(ValueOf(section), manufacturer, model, duplexMap), modtime)
    }

    /** createPPDCacheEntry. */
    constructor ()
      ensures Content() == EMPTY && section.vendor == null
    {
      modtime, section, manufacturer, model, duplexMap := 0, Section(null, map[]), "", "", map[];
    }

    /** refresh; after an error the entry is of no use any more. */
    method Refresh(ppd: Option<Ppd>, io: IO, translate: string -> Translated) returns (ok: bool)
      modifies this
      ensures var c := Refreshed(old(Content()), ppd, io, translate);
              (ok <==> c.Some?) && (ok ==> Content() == c.value)
      ensures ok <==>
                && ppd.Some? && io != NoConnection
                && (ppd.value.modtime <= old(modtime)
                    || (io != NoFile && translate(ppd.value.text).manufacturer != "" && translate(ppd.value.text).model != ""))
      ensures ok ==>
                var t := translate(ppd.value.text);
                if ppd.value.modtime <= old(modtime) then Content() == old(Content())
                else
                  modtime == ppd.value.modtime && ValueOf(section) == t.description && manufacturer == t.manufacturer
                  && model == t.model && duplexMap == t.duplexMap
      ensures ok ==> section.vendor == old(section.vendor) || section.vendor == null || fresh(section.vendor)
    {
      if io == NoConnection || ppd.None? { return false; }
      if ppd.value.modtime <= modtime { return true; }
      modtime := ppd.value.modtime;
      if io == NoFile { return false; }
      var t := translate(ppd.value.text);
      if t.manufacturer == "" || t.model == "" { return false; }
      if t.description.vendor.None? {
        section := Section(null, t.description.fields);
      } else {
        var list := new VendorList(t.description.vendor.value);
        section := Section(list, t.description.fields);
      }
      manufacturer, model, duplexMap := t.manufacturer, t.model, t.duplexMap;
      return true;
    }
  }

  /** A new entry with its first refresh. */
  method Load(ppd: Option<Ppd>, io: IO, translate: string -> Translated) returns (e: Entry, ok: bool)
    ensures fresh(e)
    ensures var c := Refreshed(EMPTY, ppd, io, translate);
            (ok <==> c.Some?) && (ok ==> e.Content() == c.value)
    ensures ok ==> e.section.vendor == null || fresh(e.section.vendor)
  {
    e := new Entry();
    ok := e.Refresh(ppd, io, translate);
  }

  class Cache {
    const translate: string -> Translated
    var entries: map<string, Entry>

    constructor (translate: string -> Translated)
      ensures Valid() && Contents() == map[] && this.translate == translate
    {
      this.translate := translate;
      entries := map[];
    }

    /** The lists that the cached descriptions point to. */
    ghost function Lists(): set<VendorList?>
      reads this, entries.Values
    {
      set e | e in entries.Values :: e.section.vendor
    }

    /** No two printers share an entry. */
    ghost predicate Valid()
      reads this
    {
      forall j, k :: j in entries && k in entries && j != k ==> entries[j] != entries[k]
    }

    ghost function Contents(): Contents
      reads this, entries.Values, set e | e in entries.Values :: e.section.vendor
    {
      map k | k in entries :: entries[k].Content()
    }

    /** quit. */
    method Quit()
      modifies this
      ensures Valid() && Contents() == map[]
    {
      entries := map[];
    }

    /** removePPD. */
    method RemovePPD(name: string)
      requires Valid()
      modifies this
      ensures Valid() && Contents() == old(Contents()) - {name}
    {
      entries := entries - {name};
    }

    /** The other entries are as they were. */
    twostate predicate OthersKept(name: string)
      reads this, entries.Values, set e | e in entries.Values :: e.section.vendor
    {
      forall k :: k != name ==>
        && (k in entries <==> k in old(entries))
        && (k in entries ==>
              && entries[k].section.vendor == old(entries[k].section.vendor)
              && entries[k].Content() == old(entries[k].Content()))
    }

    method Create(name: string, ppd: Option<Ppd>, io: IO) returns (e: Entry, ok: bool)
      requires Valid() && name !in entries
      modifies this
      ensures Valid() && OthersKept(name)
      ensures var c := Refreshed(EMPTY, ppd, io, translate);
              && (ok <==> c.Some?) && (ok <==> name in entries)
              && (ok ==> entries[name] == e && e.Content() == c.value)
      ensures ok ==> e.section.vendor == null || fresh(e.section.vendor)
    {
      e, ok := Load(ppd, io, translate);
      hide Refreshed;
      if ok { entries := entries[name := e]; }
    }

    method Renew(name: string, ppd: Option<Ppd>, io: IO) returns (e: Entry, ok: bool)
      requires Valid() && name in entries
      modifies this, entries[name]
      ensures Valid() && OthersKept(name)
      ensures var c := Refreshed(old(entries[name].Content()), ppd, io, translate);
              && (ok <==> c.Some?) && (ok <==> name in entries)
              && (ok ==> entries[name] == e && e.Content() == c.value)
      ensures ok ==>
                e.section.vendor == old(entries[name].section.vendor) || e.section.vendor == null || fresh(e.section.vendor)
    {
      e := entries[name];
      ok := e.Refresh(ppd, io, translate);
      hide Refreshed;
      assert forall k :: k in entries && k != name ==> entries[k].Content() == old(entries[k].Content());
      if !ok { entries := entries - {name}; }
    }

    /** getPPDCacheEntry. */
    method GetPPDCacheEntry(name: string, ppd: Option<Ppd>, io: IO)
      returns (r: Option<(Section, string, string, map<string, string>)>)
      requires Valid()
      modifies this, entries.Values
      ensures Valid() && Contents() == AfterGet(old(Contents()), name, ppd, io, translate)
      ensures forall l :: l in Lists() ==> l in old(Lists()) || l == null || fresh(l)
      ensures r.Some? <==> name in entries
      ensures r.Some? ==>
                && r.value == (entries[name].section, entries[name].manufacturer, entries[name].model, entries[name].duplexMap)
                && Translated(ValueOf(r.value.0), r.value.1, r.value.2, r.value.3) == Contents()[name].content
    {
      hide Refreshed;
      var e, ok;
      if name !in entries {
        e, ok := Create(name, ppd, io);
      } else {
        e, ok := Renew(name, ppd, io);
      }
      ghost var before, after := old(Contents()), Contents();
      assert OthersKept(name);
      OneChanged(before, after, name, Refreshed(Entered(before, name), ppd, io, translate));
      if !ok { return None; }
      r := Some((e.section, e.manufacturer, e.model, e.duplexMap));
    }
  }

  lemma OneChanged(before: Contents, after: Contents, name: string, c: Option<Cached>)
    requires forall k :: k != name ==> (k in after <==> k in before) && (k in after ==> after[k] == before[k])
    requires name in after <==> c.Some?
    requires c.Some? ==> after[name] == c.value
    ensures after == if c.None? then before - {name} else before[name := c.value]
  {
  }

  // ---- Coherence over runs ----

  datatype Op =
    | Get(name: string, io: IO)
    | Remove(name: string)
    | Quit
    | Change(name: string, ppd: Option<Ppd>)  // on the server; None when the printer is deleted

  /** The cache, the server, and all PPDs that each printer ever had. */
  datatype World = World(cache: Contents, server: map<string, Ppd>, past: map<string, seq<Ppd>>)

  function Current(w: World, name: string): Option<Ppd> { if name in w.server then Some(w.server[name]) else None }

  function Past(w: World, name: string): seq<Ppd> { if name in w.past then w.past[name] else [] }

  function Step(w: World, op: Op, translate: string -> Translated): World {
    match op
    case Get(name, io) => w.(cache := AfterGet(w.cache, name, Current(w, name), io, translate))
    case Remove(name) => w.(cache := w.cache - {name})
    case Quit => w.(cache := map[])
    case Change(name, None) => w.(server := w.server - {name})
    case Change(name, Some(ppd)) => w.(server := w.server[name := ppd], past := w.past[name := Past(w, name) + [ppd]])
  }

  /** The entry is the translation of a PPD. */
  predicate Comes(c: Cached, ppd: Ppd, translate: string -> Translated) {
    c == Cached(translate(ppd.text), ppd.modtime) && Parsed(c.content)
  }

  /** Every PPD is newer than those before it; times are positive. */
  ghost predicate Orderly(versions: seq<Ppd>) {
    && (forall i :: 0 <= i < |versions| ==> versions[i].modtime > 0)
    && forall i, j :: 0 <= i < j < |versions| ==> versions[i].modtime < versions[j].modtime
  }

  /** What concerns one printer. */
  datatype Slot = Slot(cached: Option<Cached>, current: Option<Ppd>, past: seq<Ppd>)

  function SlotOf(w: World, name: string): Slot {
    Slot(if name in w.cache then Some(w.cache[name]) else None, Current(w, name), Past(w, name))
  }

  /** The entry is the translation of some PPD that the printer had, and the current one is the newest. */
  ghost predicate Fits(s: Slot, translate: string -> Translated) {
    && (s.cached.Some? ==> exists i :: 0 <= i < |s.past| && Comes(s.cached.value, s.past[i], translate))
    && Orderly(s.past)
    && (s.current.Some? ==> s.past != [] && s.current.value == s.past[|s.past| - 1])
  }

  ghost predicate Inv(w: World, translate: string -> Translated) {
    forall k: string :: Fits(SlotOf(w, k), translate)
  }

  /** A changed PPD is newer than any that the printer had before. */
  ghost predicate Advances(w: World, op: Op) {
    op.Change? && op.ppd.Some? ==> Orderly(Past(w, op.name) + [op.ppd.value])
  }

  function SlotAfter(s: Slot, op: Op, name: string, translate: string -> Translated): Slot {
    if op.Quit? then s.(cached := None)
    else if op.name != name then s
    else match op
      case Get(_, io) => s.(cached := Refreshed(if s.cached.Some? then s.cached.value else EMPTY, s.current, io, translate))
      case Remove(_) => s.(cached := None)
      case Change(_, None) => s.(current := None)
      case Change(_, Some(ppd)) => s.(current := Some(ppd), past := s.past + [ppd])
  }

  lemma StepBySlots(w: World, op: Op, name: string, translate: string -> Translated)
    ensures SlotOf(Step(w, op, translate), name) == SlotAfter(SlotOf(w, name), op, name, translate)
  {
    hide Refreshed;
  }

  /** After a successful get the entry is the translation of the current PPD. */
  lemma RefreshedIsCurrent(s: Slot, io: IO, translate: string -> Translated)
    requires Fits(s, translate)
    ensures var c := Refreshed(if s.cached.Some? then s.cached.value else EMPTY, s.current, io, translate);
            c.Some? ==> s.current.Some? && Comes(c.value, s.current.value, translate)
  {
    if s.cached.Some? && s.current.Some? {
      var i :| 0 <= i < |s.past| && Comes(s.cached.value, s.past[i], translate);
      assert i == |s.past| - 1 || s.past[i].modtime < s.past[|s.past| - 1].modtime;
    }
  }

  lemma SlotKeepsFit(s: Slot, op: Op, name: string, translate: string -> Translated)
    requires Fits(s, translate) && (op.Change? && op.ppd.Some? && op.name == name ==> Orderly(s.past + [op.ppd.value]))
    ensures Fits(SlotAfter(s, op, name, translate), translate)
  {
    var n := SlotAfter(s, op, name, translate);
    if op.Get? && op.name == name {
      RefreshedIsCurrent(s, op.io, translate);
      hide Refreshed, Comes, Orderly;
      if n.cached.Some? { assert Comes(n.cached.value, s.past[|s.past| - 1], translate); }
    } else if s.cached.Some? {
      var i :| 0 <= i < |s.past| && Comes(s.cached.value, s.past[i], translate);
      assert n.past[i] == s.past[i];
    }
    hide Refreshed, Comes, Orderly;
  }

  lemma StepKeepsInv(w: World, op: Op, translate: string -> Translated)
    requires Inv(w, translate) && Advances(w, op)
    ensures Inv(Step(w, op, translate), translate)
  {
    hide Step, SlotAfter, Fits, Orderly;
    forall k: string ensures Fits(SlotOf(Step(w, op, translate), k), translate) {
      StepBySlots(w, op, k, translate);
      SlotKeepsFit(SlotOf(w, k), op, k, translate);
    }
  }

  ghost predicate IsRun(run: seq<World>, ops: seq<Op>, translate: string -> Translated) {
    && |run| == |ops| + 1 && run[0] == World(map[], map[], map[])
    && forall i :: 0 <= i < |ops| ==> run[i + 1] == Step(run[i], ops[i], translate)
  }

  lemma {:induction false} RunKeepsInv(run: seq<World>, ops: seq<Op>, translate: string -> Translated, i: nat)
    requires IsRun(run, ops, translate) && i <= |ops|
    requires forall j :: 0 <= j < |ops| ==> Advances(run[j], ops[j])
    ensures Inv(run[i], translate)
  {
    if i > 0 {
      RunKeepsInv(run, ops, translate, i - 1);
      StepKeepsInv(run[i - 1], ops[i - 1], translate);
    } else {
      assert forall k: string :: SlotOf(run[0], k) == Slot(None, None, []);
    }
    hide Step, Advances;
  }

  /**
   * Coherence: if every change of a PPD advances its time, then in every run of gets, failed refreshes,
   * removals and server changes, each successful get gives the translation of the then current PPD.
   */
  lemma EveryGetIsCurrent(run: seq<World>, ops: seq<Op>, translate: string -> Translated, i: nat)
    requires IsRun(run, ops, translate) && i < |ops| && ops[i].Get?
    requires forall j :: 0 <= j < |ops| ==> Advances(run[j], ops[j])
    ensures var name := ops[i].name;
            name in run[i + 1].cache ==>
              name in run[i].server && Comes(run[i + 1].cache[name], run[i].server[name], translate)
  {
    RunKeepsInv(run, ops, translate, i);
    var s := SlotOf(run[i], ops[i].name);
    assert Fits(s, translate);
    RefreshedIsCurrent(s, ops[i].io, translate);
    StepBySlots(run[i], ops[i], ops[i].name, translate);
    hide Inv, Step, Advances, Comes, Fits, Refreshed;
  }

  /** Without that, a get can give the old translation: two changes in one tick of the server's clock. */
  lemma StaleWithinOneTick(name: string, a: string, b: string, t: int, translate: string -> Translated)
    requires t > 0 && Parsed(translate(a)) && translate(a) != translate(b)
    ensures var w0 := World(map[], map[name := Ppd(a, t)], map[name := [Ppd(a, t)]]);
            var w1 := Step(w0, Get(name, Works), translate);
            var w2 := Step(w1, Change(name, Some(Ppd(b, t))), translate);
            var w3 := Step(w2, Get(name, Works), translate);
            name in w3.cache && w3.cache[name].content == translate(a) && w3.server[name].text == b
  {
  }

  // ---- Exactly when a get can be stale ----

  ghost function WorldAfter(ops: seq<Op>, translate: string -> Translated): World {
    if ops == [] then World(map[], map[], map[])
    else Step(WorldAfter(ops[..|ops| - 1], translate), ops[|ops| - 1], translate)
  }

  /** Everything but the gets: what happens to the server, and to the cache from outside. */
  function IsHistory(): Op -> bool { (op: Op) => !op.Get? }

  function HistoryOf(ops: seq<Op>): seq<Op> { Filter(IsHistory(), ops) }

  /** The PPD that the server has after a history. */
  ghost function CurrentAfter(h: seq<Op>, name: string): Option<Ppd> {
    if h == [] then None
    else if h[|h| - 1].Change? && h[|h| - 1].name == name then h[|h| - 1].ppd
    else CurrentAfter(h[..|h| - 1], name)
  }

  predicate Forgets(op: Op, name: string) {
    op.Quit? || (op.Remove? && op.name == name)
  }

  /** What a get puts in the place of an empty entry. */
  function Fetched(ppd: Option<Ppd>, translate: string -> Translated): set<Cached> {
    if ppd.Some? && ppd.value.modtime > 0 && Parsed(translate(ppd.value.text))
    then {Cached(translate(ppd.value.text), ppd.value.modtime)} else {}
  }

  /** What the entry can be after a history: empty, or any PPD that was current since it was last removed. */
  ghost function Holdable(h: seq<Op>, name: string, translate: string -> Translated): set<Cached> {
    if h == [] then {EMPTY}
    else
      Fetched(CurrentAfter(h, name), translate)
      + if Forgets(h[|h| - 1], name) then {EMPTY} else Holdable(h[..|h| - 1], name, translate)
  }

  /** A get at the end succeeds, and gives something else than the translation of the current PPD. */
  ghost predicate GetsStale(ops: seq<Op>, name: string, translate: string -> Translated) {
    var w := WorldAfter(ops, translate);
    var after := Step(w, Get(name, Works), translate);
    && name in w.server && name in after.cache
    && after.cache[name].content != translate(w.server[name].text)
  }

  /** The entry can be one that is no older than the current PPD, and not its translation. */
  ghost predicate CanHoldStale(h: seq<Op>, name: string, translate: string -> Translated) {
    var ppd := CurrentAfter(h, name);
    ppd.Some? && exists c :: c in Holdable(h, name, translate) && IsStale(c, ppd.value, translate)
  }

  predicate IsStale(c: Cached, ppd: Ppd, translate: string -> Translated) {
    ppd.modtime <= c.modtime && c.content != translate(ppd.text)
  }

  lemma {:induction false} HoldableHas(h: seq<Op>, name: string, translate: string -> Translated)
    ensures EMPTY in Holdable(h, name, translate) && Fetched(CurrentAfter(h, name), translate) <= Holdable(h, name, translate)
    ensures forall c :: c in Holdable(h, name, translate) ==> c.modtime >= 0
  {
    if h != [] { HoldableHas(h[..|h| - 1], name, translate); }
  }

  lemma HistoryNext(ops: seq<Op>, op: Op)
    ensures HistoryOf(ops + [op]) == HistoryOf(ops) + if op.Get? then [] else [op]
  {
    FilterNext(IsHistory(), ops, op);
    hide Filter;
  }

  lemma WorldNext(ops: seq<Op>, op: Op, name: string, translate: string -> Translated)
    ensures WorldAfter(ops + [op], translate) == Step(WorldAfter(ops, translate), op, translate)
    ensures SlotOf(WorldAfter(ops + [op], translate), name) == SlotAfter(SlotOf(WorldAfter(ops, translate), name),
        op, name, translate)
  {
    hide Step, SlotAfter;
    assert (ops + [op])[..|ops|] == ops;
    StepBySlots(WorldAfter(ops, translate), op, name, translate);
  }

  function EntryIn(s: Slot): Cached { if s.cached.Some? then s.cached.value else EMPTY }

  lemma HoldableNext(h: seq<Op>, op: Op, name: string, translate: string -> Translated)
    ensures var more := h + [op];
            && CurrentAfter(more, name) == (if op.Change? && op.name == name then op.ppd else CurrentAfter(h, name))
            && Holdable(more, name, translate) ==
                 Fetched(CurrentAfter(more, name), translate) + if Forgets(op, name) then {EMPTY} else Holdable(h,
                     name, translate)
  {
    hide Fetched;
    assert (h + [op])[..|h|] == h;
  }

  /** A get finds the entry good enough, replaces it, or fails. */
  lemma GetIsHoldable(s: Slot, op: Op, name: string, translate: string -> Translated, held: set<Cached>)
    requires op.Get? && EntryIn(s) in held && EMPTY in held && Fetched(s.current, translate) <= held
    requires forall c :: c in held ==> c.modtime >= 0
    ensures SlotAfter(s, op, name, translate).current == s.current && EntryIn(SlotAfter(s, op, name, translate)) in held
  {
    hide Parsed;
  }

  /** Nothing else changes an entry, unless it is forgotten. */
  lemma OtherOps(s: Slot, op: Op, name: string, translate: string -> Translated)
    requires !op.Get?
    ensures var t := SlotAfter(s, op, name, translate);
            && t.current == (if op.Change? && op.name == name then op.ppd else s.current)
            && EntryIn(t) == if Forgets(op, name) then EMPTY else EntryIn(s)
  {
  }

  /** Whatever gets are made, the entry is one of those. */
  lemma {:induction false} EntryIsHoldable(ops: seq<Op>, name: string, translate: string -> Translated)
    ensures var s := SlotOf(WorldAfter(ops, translate), name);
            s.current == CurrentAfter(HistoryOf(ops), name) && EntryIn(s) in Holdable(HistoryOf(ops), name, translate)
  {
    if ops != [] {
      var rest, op := ops[..|ops| - 1], ops[|ops| - 1];
      assert ops == rest + [op];
      EntryIsHoldable(rest, name, translate);
      hide *;
      HistoryNext(rest, op);
      WorldNext(rest, op, name, translate);
      var h, s := HistoryOf(rest), SlotOf(WorldAfter(rest, translate), name);
      if op.Get? {
        HoldableHas(h, name, translate);
        GetIsHoldable(s, op, name, translate, Holdable(h, name, translate));
        assert h + [] == h;
      } else {
        HoldableNext(h, op, name, translate);
        OtherOps(s, op, name, translate);
      }
    }
  }

  lemma GetFetches(s: Slot, name: string, translate: string -> Translated, c: Cached)
    requires EntryIn(s) == EMPTY && c in Fetched(s.current, translate)
    ensures EntryIn(SlotAfter(s, Get(name, Works), name, translate)) == c
  {
  }

  /** One more op, with a get after it if the entry is to be the current PPD. */
  lemma ReachNext(ops: seq<Op>, op: Op, name: string, translate: string -> Translated, c: Cached) returns (more: seq<Op>)
    requires !op.Get?
    requires var e := if Forgets(op, name) then EMPTY else EntryIn(SlotOf(WorldAfter(ops, translate), name));
             e == c || (e == EMPTY && c in Fetched(CurrentAfter(HistoryOf(ops + [op]), name), translate))
    ensures HistoryOf(more) == HistoryOf(ops) + [op] && EntryIn(SlotOf(WorldAfter(more, translate), name)) == c
  {
    hide *;
    more := ops + [op];
    var s := SlotOf(WorldAfter(more, translate), name);
    HistoryNext(ops, op);
    WorldNext(ops, op, name, translate);
    OtherOps(SlotOf(WorldAfter(ops, translate), name), op, name, translate);
    EntryIsHoldable(more, name, translate);
    if EntryIn(s) != c {
      GetFetches(s, name, translate, c);
      HistoryNext(more, Get(name, Works));
      WorldNext(more, Get(name, Works), name, translate);
      assert HistoryOf(more) + [] == HistoryOf(more);
      more := more + [Get(name, Works)];
    }
  }

  /** And each of those is what some gets lead to. */
  lemma {:induction false} HoldableIsReached(h: seq<Op>, name: string, translate: string -> Translated, c: Cached)
    returns (ops: seq<Op>)
    requires (forall op :: op in h ==> !op.Get?) && c in Holdable(h, name, translate)
    ensures HistoryOf(ops) == h && EntryIn(SlotOf(WorldAfter(ops, translate), name)) == c
  {
    if h == [] {
      ops := [];
    } else {
      var rest, op := h[..|h| - 1], h[|h| - 1];
      assert h == rest + [op];
      HoldableHas(rest, name, translate);
      HoldableNext(rest, op, name, translate);
      var before := if !Forgets(op, name) && c in Holdable(rest, name, translate) then c else EMPTY;
      hide Fetched, Holdable, HistoryOf, WorldAfter, SlotOf, EntryIn, CurrentAfter, Forgets;
      ops := HoldableIsReached(rest, name, translate, before);
      HistoryNext(ops, op);
      ops := ReachNext(ops, op, name, translate, c);
    }
  }

  lemma StaleByEntry(ops: seq<Op>, name: string, translate: string -> Translated)
    ensures var s := SlotOf(WorldAfter(ops, translate), name);
            GetsStale(ops, name, translate) <==> s.current.Some? && IsStale(EntryIn(s), s.current.value, translate)
  {
  }

  /**
   * Given what happens to the server and what is removed from the cache, some placement of gets leads to a stale
   * answer if and only if a PPD that was current since the last removal is no older than the present one, and
   * differs in its translation; or the present one has no positive time.
   */
  lemma StaleExactlyIfHeld(h: seq<Op>, name: string, translate: string -> Translated)
    requires forall op :: op in h ==> !op.Get?
    ensures (exists ops :: HistoryOf(ops) == h && GetsStale(ops, name, translate)) <==> CanHoldStale(h, name, translate)
  {
    hide HistoryOf, WorldAfter, Holdable, CurrentAfter, SlotOf, IsStale, GetsStale;
    if ops :| HistoryOf(ops) == h && GetsStale(ops, name, translate) {
      EntryIsHoldable(ops, name, translate);
      StaleByEntry(ops, name, translate);
    }
    if CanHoldStale(h, name, translate) {
      var c :| c in Holdable(h, name, translate) && IsStale(c, CurrentAfter(h, name).value, translate);
      var ops := HoldableIsReached(h, name, translate, c);
      EntryIsHoldable(ops, name, translate);
      StaleByEntry(ops, name, translate);
    }
  }

  // ---- The cached descriptions are not written to ----

  /** A printer's description absorbs the cached one and then the static one (addPPDDescriptionToPrinters and after). */
  method Describe(p: Section, cache: Cache, name: string, ppd: Option<Ppd>, io: IO, always: map<Field, string>)
    returns (r: Option<Section>)
    requires cache.Valid() && (p.vendor == null || p.vendor !in cache.Lists())
    modifies cache, cache.entries.Values, p.vendor, cache.Lists()
    ensures cache.Valid() && cache.Contents() == AfterGet(old(cache.Contents()), name, ppd, io, cache.translate)
    ensures r.Some? <==> name in cache.entries
    ensures r.Some? ==>
              ValueOf(r.value) ==
                Absorbed(Absorbed(old(ValueOf(p)), cache.Contents()[name].content.description), Description(None, always))
  {
    var found := cache.GetPPDCacheEntry(name, ppd, io);
    if found.None? { return None; }
    var own := AbsorbBeside(p, found.value.0, cache);
    var all := AbsorbBeside(own, Section(null, always), cache);
    return Some(all);
  }

  /** Absorbing beside a cache changes nothing in it, if the list written to is not cached, or nothing is written. */
  method AbsorbBeside(a: Section, b: Section, ghost cache: Cache) returns (r: Section)
    requires a.vendor == null || a.vendor !in cache.Lists() || !Writes(ValueOf(a), ValueOf(b))
    modifies a.vendor
    ensures ValueOf(r) == Absorbed(old(ValueOf(a)), old(ValueOf(b)))
    ensures r.vendor == a.vendor || r.vendor == b.vendor
    ensures cache.Contents() == old(cache.Contents())
  {
    r := Absorb(a, b);
    hide Writes, Absorbed;
    assert forall k :: k in cache.entries ==> cache.entries[k].Content() == old(cache.entries[k].Content());
  }
}
