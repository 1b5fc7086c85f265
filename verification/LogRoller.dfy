/** The rolling log file (log/logroller.go). */
module LogRoller {
  import opened Collections
  import opened Decimals

  newtype Byte = x: int | 0 <= x < 256

  type Bytes = seq<Byte>

  // ---- Number suffixes ----

  /** What the roll pattern and a 16-bit strconv.ParseUint accept. */
  predicate Numeric(s: string) {
    s != "" && AllDigits(s) && Val(s) <= 65535
  }

  function Zeros(n: nat): (s: string)
    ensures |s| == n && AllDigits(s) && Val(s) == 0
  {
    if n == 0 then "" else
      var s := Zeros(n - 1) + "0";
      assert s[..n - 1] == Zeros(n - 1);
      s
  }

  lemma {:induction false} LeadingZeros(z: string, s: string)
    requires AllDigits(z) && Val(z) == 0 && AllDigits(s)
    ensures AllDigits(z + s) && Val(z + s) == Val(s)
  {
    if s == "" {
      assert z + s == z;
    } else {
      assert (z + s)[..|z + s| - 1] == z + s[..|s| - 1];
      LeadingZeros(z, s[..|s| - 1]);
    }
  }

  /** fmt.Sprintf("%0<width>d", n). */
  function Pad(n: nat, width: nat): (s: string)
    ensures AllDigits(s) && s != "" && Val(s) == n
    ensures n <= 65535 ==> Numeric(s)
  {
    var d := Decimal(n);
    LeadingZeros(Zeros(if |d| < width then width - |d| else 0), d);
    Zeros(if |d| < width then width - |d| else 0) + d
  }

  /** It has the width asked for, or is wider and without a leading zero. */
  lemma PadHasWidth(n: nat, width: nat)
    ensures |Pad(n, width)| >= width && (|Pad(n, width)| > width && n > 0 ==> Pad(n, width)[0] != '0')
  {
    if n > 0 { NoLeadingZero(n); }
    hide Decimal, Val, AllDigits;
  }

  // ---- Sorting by number (sortableNumberStrings) ----

  ghost predicate Ascending(s: seq<string>) {
    && (forall i :: 0 <= i < |s| ==> Numeric(s[i]))
    && (forall i, j :: 0 <= i < j < |s| ==> Val(s[i]) < Val(s[j]))
  }

  function Insert(s: seq<string>, x: string): seq<string>
    requires AllDigits(x) && forall i :: 0 <= i < |s| ==> AllDigits(s[i])
  {
    if s == [] || Val(s[|s| - 1]) < Val(x) then s + [x] else Insert(s[..|s| - 1], x) + [s[|s| - 1]]
  }

  lemma AppendAscends(s: seq<string>, x: string)
    requires Ascending(s) && Numeric(x) && forall y :: y in s && Numeric(y) ==> Val(y) < Val(x)
    ensures Ascending(s + [x])
  {
    hide Val;
    forall i | 0 <= i < |s| ensures Val(s[i]) < Val(x) { assert s[i] in s; }
  }

  lemma LastIsHighest(s: seq<string>)
    requires Ascending(s) && s != []
    ensures forall y :: y in s[..|s| - 1] ==> Numeric(y) && Val(y) < Val(s[|s| - 1])
  {
    hide Val;
    forall y | y in s[..|s| - 1] ensures Numeric(y) && Val(y) < Val(s[|s| - 1]) {
      var k :| 0 <= k < |s| - 1 && s[k] == y;
    }
  }

  lemma {:induction false} InsertAscends(s: seq<string>, x: string)
    requires Ascending(s) && Numeric(x) && forall y :: y in s && Numeric(y) ==> Val(y) != Val(x)
    ensures Ascending(Insert(s, x))
    ensures forall y :: y in Insert(s, x) <==> y == x || y in s
  {
    if s == [] {
      AppendAscends(s, x);
    } else {
      var rest, last := s[..|s| - 1], s[|s| - 1];
      assert s == rest + [last];
      LastIsHighest(s);
      hide Val;
      if Val(last) < Val(x) {
        AppendAscends(s, x);
      } else {
        InsertAscends(rest, x);
        assert last in s;
        AppendAscends(Insert(rest, x), last);
      }
    }
  }

  // ---- The directory ----

  /**
   * The files that concern one log: the log file itself, and those named after it with a dot and a
   * suffix, by suffix. Files of other names are never touched.
   */
  class Directory {
    var current: Option<Bytes>
    var suffixed: map<string, Bytes>

    /** filepath.Glob of the log's name with ".*": the suffixes, in some order. */
    method Glob() returns (suffixes: seq<string>)
      ensures forall s :: s in suffixes <==> s in suffixed
      ensures Distinct(suffixes)
    {
      suffixes := [];
      var todo := suffixed.Keys;
      while todo != {}
        invariant todo <= suffixed.Keys
        invariant forall s :: s in suffixes <==> s in suffixed && s !in todo
        invariant Distinct(suffixes)
        decreases todo
      {
        var s :| s in todo;
        suffixes, todo := suffixes + [s], todo - {s};
      }
    }

    method Remove(s: string)
      requires s in suffixed
      modifies this`suffixed
      ensures suffixed == old(suffixed) - {s}
    {
      suffixed := suffixed - {s};
    }

    method Rename(from: string, to: string)
      requires from in suffixed
      modifies this`suffixed
      ensures suffixed == (old(suffixed) - {from})[to := old(suffixed)[from]]
    {
      suffixed := (suffixed - {from})[to := suffixed[from]];
    }

    method RenameCurrent(to: string)
      requires current.Some?
      modifies this
      ensures current == None && suffixed == old(suffixed)[to := old(current).value]
    {
      suffixed, current := suffixed[to := current.value], None;
    }

    /** os.Create. */
    method Create()
      modifies this`current
      ensures current == Some([])
    {
      current := Some([]);
    }

    method Append(p: Bytes)
      requires current.Some?
      modifies this`current
      ensures current == Some(old(current).value + p)
    {
      current := Some(current.value + p);
    }
  }

  /** The numeric suffixes have distinct values, and one more still fits in 16 bits. */
  ghost predicate Rollable(files: map<string, Bytes>) {
    && (forall s :: s in files && Numeric(s) ==> Val(s) < 65535)
    && (forall s, t :: s in files && t in files && Numeric(s) && Numeric(t) && Val(s) == Val(t) ==> s == t)
  }

  /** The numeric suffixes, lowest number first. */
  ghost predicate Lists(numbers: seq<string>, files: map<string, Bytes>) {
    Ascending(numbers) && forall s :: s in numbers <==> s in files && Numeric(s)
  }

  function Shifted(s: string, width: nat): string
    requires Numeric(s)
  {
    Pad(Val(s) + 1, width)
  }

  function Find(files: map<string, Bytes>, s: string): Option<Bytes> {
    if s in files then Some(files[s]) else None
  }

  /** The files after files i and up have been dealt with: the lowest `keep` renumbered, the others removed. */
  ghost function Staged(before: map<string, Bytes>, numbers: seq<string>, keep: nat, width: nat, i: nat): map<string, Bytes>
    requires Lists(numbers, before) && i <= |numbers|
    decreases |numbers| - i
  {
    if i == |numbers| then before
    else
      var rest := Staged(before, numbers, keep, width, i + 1) - {numbers[i]};
      assert numbers[i] in numbers;
      if i < keep then rest[Shifted(numbers[i], width) := before[numbers[i]]] else rest
  }

  lemma ShiftsApart(numbers: seq<string>, width: nat, i: nat, j: nat)
    requires Ascending(numbers) && i < j < |numbers|
    ensures Shifted(numbers[j], width) != numbers[i] && Shifted(numbers[j], width) != Shifted(numbers[i], width)
  {
    assert Val(numbers[i]) < Val(numbers[j]) < Val(Shifted(numbers[j], width));
  }

  /** A renumbered file has its old contents. */
  lemma {:induction false} StagedTarget(before: map<string, Bytes>, numbers: seq<string>, keep: nat, width: nat, i: nat, j: nat)
    requires Lists(numbers, before) && i <= j < |numbers| && j < keep
    ensures numbers[j] in before
    ensures Find(Staged(before, numbers, keep, width, i), Shifted(numbers[j], width)) == Find(before, numbers[j])
    decreases |numbers| - i
  {
    hide Shifted, Val;
    assert numbers[j] in numbers;
    if i < j {
      StagedTarget(before, numbers, keep, width, i + 1, j);
      ShiftsApart(numbers, width, i, j);
    }
  }

  ghost predicate IsTarget(numbers: seq<string>, keep: nat, width: nat, i: nat, s: string)
    requires Ascending(numbers)
  {
    exists j :: i <= j < |numbers| && j < keep && s == Shifted(numbers[j], width)
  }

  /** Any other file is as before, unless it is one of those dealt with. */
  lemma {:induction false} StagedOther(before: map<string, Bytes>, numbers: seq<string>, keep: nat, width: nat, i: nat, s: string)
    requires Lists(numbers, before) && i <= |numbers| && !IsTarget(numbers, keep, width, i, s)
    ensures Find(Staged(before, numbers, keep, width, i), s) == if s in numbers[i..] then None else Find(before, s)
    decreases |numbers| - i
  {
    if i < |numbers| {
      assert i < keep ==> s != Shifted(numbers[i], width);
      assert !IsTarget(numbers, keep, width, i + 1, s);
      hide Shifted, IsTarget, Val, Numeric;
      assert numbers[i..] == [numbers[i]] + numbers[i + 1..];
      StagedOther(before, numbers, keep, width, i + 1, s);
    }
  }

  /** The rename target of file i is free, and file i itself has not been touched. */
  lemma TargetIsFree(before: map<string, Bytes>, numbers: seq<string>, keep: nat, width: nat, i: nat)
    requires Rollable(before) && Lists(numbers, before) && i < |numbers|
    ensures var now := Staged(before, numbers, keep, width, i + 1);
            && Shifted(numbers[i], width) !in now
            && numbers[i] in now && numbers[i] in before && now[numbers[i]] == before[numbers[i]]
  {
    var s, t := numbers[i], Shifted(numbers[i], width);
    assert s in numbers;
    forall j | i < j < |numbers| ensures Val(numbers[j]) > Val(s) {}
    hide Shifted, Val;
    NotTargetAbove(numbers, keep, width, i);
    StagedOther(before, numbers, keep, width, i + 1, s);
    StagedOther(before, numbers, keep, width, i + 1, t);
    SuffixAbove(before, numbers, width, i);
  }

  lemma NotTargetAbove(numbers: seq<string>, keep: nat, width: nat, i: nat)
    requires Ascending(numbers) && i < |numbers|
    ensures !IsTarget(numbers, keep, width, i + 1, numbers[i])
    ensures !IsTarget(numbers, keep, width, i + 1, Shifted(numbers[i], width))
  {
    forall j | i < j < |numbers|
      ensures Shifted(numbers[j], width) != numbers[i] && Shifted(numbers[j], width) != Shifted(numbers[i], width)
    {
      ShiftsApart(numbers, width, i, j);
    }
  }

  /** A file that already has the next number is one of those above. */
  lemma SuffixAbove(before: map<string, Bytes>, numbers: seq<string>, width: nat, i: nat)
    requires Rollable(before) && Lists(numbers, before) && i < |numbers|
    ensures numbers[i] !in numbers[i + 1..]
    ensures Shifted(numbers[i], width) in before ==> Shifted(numbers[i], width) in numbers[i + 1..]
  {
    var s, t := numbers[i], Shifted(numbers[i], width);
    assert s in numbers;
    forall j | i < j < |numbers| ensures numbers[j] != s { assert Val(s) < Val(numbers[j]); }
    if t in before {
      assert Numeric(t) && t in numbers;
      var j :| 0 <= j < |numbers| && numbers[j] == t;
      assert Val(numbers[j]) == Val(s) + 1;
      assert i < j;
      assert numbers[i + 1..][j - i - 1] == t;
    }
  }

  function Keep(maxFiles: nat): nat {
    if maxFiles == 0 then 0 else maxFiles - 1
  }

  /**
   * The rolled files, renumbered: the `keep` lowest-numbered survive with their contents under the
   * next number, all other numbered files are gone, and number 0 is free.
   */
  ghost predicate Renumbered(
    before: map<string, Bytes>, after: map<string, Bytes>, numbers: seq<string>, keep: nat, width: nat)
    requires Lists(numbers, before)
  {
    && (forall s :: !Numeric(s) ==> Find(after, s) == Find(before, s))
    && (forall j :: 0 <= j < |numbers| && j < keep ==> Find(after, Shifted(numbers[j], width)) == Find(before, numbers[j]))
    && (forall s :: s in after && Numeric(s) ==> IsTarget(numbers, keep, width, 0, s))
    && Pad(0, width) !in after
  }

  lemma NoTarget(before: map<string, Bytes>, numbers: seq<string>, keep: nat, width: nat, s: string)
    requires Rollable(before) && Lists(numbers, before) && (s == Pad(0, width) || !Numeric(s))
    ensures !IsTarget(numbers, keep, width, 0, s)
  {
    forall j | 0 <= j < |numbers| ensures Shifted(numbers[j], width) != s {
      assert numbers[j] in numbers;
      assert Numeric(Shifted(numbers[j], width)) && Val(Shifted(numbers[j], width)) > 0;
    }
  }

  lemma StagedPlain(before: map<string, Bytes>, numbers: seq<string>, keep: nat, width: nat, s: string)
    requires Rollable(before) && Lists(numbers, before) && (s == Pad(0, width) || !Numeric(s))
    ensures Find(Staged(before, numbers, keep, width, 0), s) == if s == Pad(0, width) then None else Find(before, s)
  {
    NoTarget(before, numbers, keep, width, s);
    assert Numeric(Pad(0, width));
    hide Staged, Pad, Val, Shifted, IsTarget, Ascending, Rollable, Numeric;
    StagedOther(before, numbers, keep, width, 0, s);
    assert numbers[0..] == numbers;
  }

  lemma StagedNumeric(before: map<string, Bytes>, numbers: seq<string>, keep: nat, width: nat, s: string)
    requires Lists(numbers, before) && s in Staged(before, numbers, keep, width, 0) && Numeric(s)
    ensures IsTarget(numbers, keep, width, 0, s)
  {
    hide Staged, Pad, Val, Shifted, IsTarget, Ascending, Numeric;
    assert numbers[0..] == numbers;
    if !IsTarget(numbers, keep, width, 0, s) { StagedOther(before, numbers, keep, width, 0, s); }
  }

  lemma StagesRenumber(before: map<string, Bytes>, numbers: seq<string>, keep: nat, width: nat)
    requires Rollable(before) && Lists(numbers, before)
    ensures Renumbered(before, Staged(before, numbers, keep, width, 0), numbers, keep, width)
  {
    var now := Staged(before, numbers, keep, width, 0);
    assert forall j :: 0 <= j < |numbers| ==> Numeric(numbers[j]);
    hide Staged, Pad, Shifted, IsTarget, Lists, Ascending, Rollable, Numeric;
    StagedPlain(before, numbers, keep, width, Pad(0, width));
    forall s | !Numeric(s) ensures Find(now, s) == Find(before, s) {
      StagedPlain(before, numbers, keep, width, s);
      assert Numeric(Pad(0, width));
    }
    forall j | 0 <= j < |numbers| && j < keep ensures Find(now, Shifted(numbers[j], width)) == Find(before, numbers[j]) {
      StagedTarget(before, numbers, keep, width, 0, j);
    }
    forall s | s in now && Numeric(s) ensures IsTarget(numbers, keep, width, 0, s) {
      StagedNumeric(before, numbers, keep, width, s);
    }
  }

  // ---- Conservation ----

  /** A file, as the writes that made it. */
  type File = seq<Bytes>

  function Min(a: nat, b: nat): nat { if a < b then a else b }

  /** The newest closed files are in the directory, newest first, under the numbers 0, 1, ... */
  ghost predicate Laid(suffixed: map<string, Bytes>, history: seq<File>, maxFiles: nat, width: nat) {
    && (forall j :: 0 <= j < Min(|history|, maxFiles) ==>
          Find(suffixed, Pad(j, width)) == Some(Flatten(history[|history| - 1 - j])))
    && (forall s :: s in suffixed && Numeric(s) ==> exists j :: 0 <= j < Min(|history|, maxFiles) && s == Pad(j, width))
  }

  lemma LaidIsRollable(suffixed: map<string, Bytes>, history: seq<File>, maxFiles: nat, width: nat)
    requires Laid(suffixed, history, maxFiles, width) && maxFiles <= 65535
    ensures Rollable(suffixed)
  {
  }

  lemma {:induction false} AscendingAt(v: seq<nat>, k: nat, i: nat)
    requires forall i, j :: 0 <= i < j < |v| ==> v[i] < v[j]
    requires forall x: nat :: x < k ==> x in v
    requires i < k
    ensures i < |v| && v[i] == i
  {
    if i > 0 { AscendingAt(v, k, i - 1); }
    assert i in v;
    var m :| 0 <= m < |v| && v[m] == i;
    assert i <= m;
  }

  lemma {:induction false} AscendingAhead(v: seq<nat>, i: nat)
    requires forall i, j :: 0 <= i < j < |v| ==> v[i] < v[j]
    requires i < |v|
    ensures i <= v[i]
  {
    if i > 0 { AscendingAhead(v, i - 1); }
  }

  /** Strictly ascending numbers below k that miss none are 0, 1, ..., k - 1. */
  lemma AscendingRange(v: seq<nat>, k: nat)
    requires forall i, j :: 0 <= i < j < |v| ==> v[i] < v[j]
    requires forall x: nat :: x in v <==> x < k
    ensures |v| == k && forall i :: 0 <= i < k ==> v[i] == i
  {
    forall i | 0 <= i < |v| ensures v[i] < k {
      var x := v[i];
      assert x in v;
    }
    forall i | 0 <= i < k ensures i < |v| && v[i] == i { AscendingAt(v, k, i); }
    if k > 0 { AscendingAt(v, k, k - 1); }
    if v != [] { AscendingAhead(v, |v| - 1); }
  }

  lemma LaidIn(suffixed: map<string, Bytes>, numbers: seq<string>, history: seq<File>, maxFiles: nat, width: nat, x: nat)
    requires Laid(suffixed, history, maxFiles, width) && maxFiles <= 65535 && Lists(numbers, suffixed)
    ensures x < Min(|history|, maxFiles) <==> exists j :: 0 <= j < |numbers| && Val(numbers[j]) == x
  {
    if x < Min(|history|, maxFiles) {
      assert Pad(x, width) in numbers;
      var j :| 0 <= j < |numbers| && numbers[j] == Pad(x, width);
      assert Val(numbers[j]) == x;
    }
    if j :| 0 <= j < |numbers| && Val(numbers[j]) == x { assert numbers[j] in numbers; }
  }

  /** So the sorted numbers are just 0, 1, ... */
  lemma LaidNumbers(suffixed: map<string, Bytes>, numbers: seq<string>, history: seq<File>, maxFiles: nat, width: nat)
    requires Laid(suffixed, history, maxFiles, width) && maxFiles <= 65535 && Lists(numbers, suffixed)
    ensures |numbers| == Min(|history|, maxFiles)
    ensures forall j :: 0 <= j < |numbers| ==> numbers[j] == Pad(j, width)
  {
    var v: seq<nat> := seq(|numbers|, i requires 0 <= i < |numbers| => Val(numbers[i]));
    forall x: nat ensures x in v <==> x < Min(|history|, maxFiles) {
      LaidIn(suffixed, numbers, history, maxFiles, width, x);
      hide Laid, Lists, Val;
      if j :| 0 <= j < |numbers| && Val(numbers[j]) == x { assert v[j] == x; }
    }
    AscendingRange(v, Min(|history|, maxFiles));
    forall j | 0 <= j < |numbers| ensures numbers[j] == Pad(j, width) {
      assert v[j] == j && numbers[j] in numbers;
    }
  }

  ghost function RolledFiles(renumbered: map<string, Bytes>, file: File, maxFiles: nat, width: nat): map<string, Bytes> {
    if maxFiles == 0 then renumbered else renumbered[Pad(0, width) := Flatten(file)]
  }

  lemma PadsApart(j: nat, width: nat)
    ensures Pad(j + 1, width) != Pad(0, width)
  {
    assert Val(Pad(j + 1, width)) == j + 1;
  }

  lemma ShiftedPad(j: nat, width: nat)
    requires Numeric(Pad(j, width))
    ensures Shifted(Pad(j, width), width) == Pad(j + 1, width)
  {
  }

  lemma RenumberedAt(before: map<string, Bytes>, after: map<string, Bytes>, numbers: seq<string>, keep: nat, width: nat, j: nat)
    requires Lists(numbers, before) && Renumbered(before, after, numbers, keep, width) && j < |numbers| && j < keep
    ensures Find(after, Shifted(numbers[j], width)) == Find(before, numbers[j])
  {
    hide Find, Ascending;
  }

  lemma RenumberedOnly(before: map<string, Bytes>, after: map<string, Bytes>, numbers: seq<string>, keep: nat, width: nat, s: string)
    returns (j: nat)
    requires Lists(numbers, before) && Renumbered(before, after, numbers, keep, width) && s in after && Numeric(s)
    ensures j < |numbers| && j < keep && Numeric(numbers[j]) && s == Shifted(numbers[j], width)
  {
    hide Find, Shifted, Pad, Val;
    assert IsTarget(numbers, keep, width, 0, s);
    j :| 0 <= j < |numbers| && j < keep && s == Shifted(numbers[j], width);
  }

  lemma LaidAt(suffixed: map<string, Bytes>, history: seq<File>, maxFiles: nat, width: nat, j: nat)
    requires Laid(suffixed, history, maxFiles, width) && j < Min(|history|, maxFiles)
    ensures Find(suffixed, Pad(j, width)) == Some(Flatten(history[|history| - 1 - j]))
  {
    hide Find, Pad, Flatten;
  }

  lemma RolledFileAt(
    before: map<string, Bytes>, renumbered: map<string, Bytes>, numbers: seq<string>, history: seq<File>, file: File,
    maxFiles: nat, width: nat, j: nat)
    requires Laid(before, history, maxFiles, width) && maxFiles <= 65535 && Lists(numbers, before)
    requires Renumbered(before, renumbered, numbers, Keep(maxFiles), width)
    requires j < Min(|history| + 1, maxFiles)
    ensures Find(RolledFiles(renumbered, file, maxFiles, width), Pad(j, width)) == Some(Flatten((history + [file])[|history| - j]))
  {
    hide Pad, Flatten, Numeric, Shifted, Laid, Lists, Renumbered, Ascending;
    if j > 0 {
      LaidNumbers(before, numbers, history, maxFiles, width);
      LaidAt(before, history, maxFiles, width, j - 1);
      RenumberedAt(before, renumbered, numbers, Keep(maxFiles), width, j - 1);
      PadsApart(j - 1, width);
      ShiftedPad(j - 1, width);
      assert (history + [file])[|history| - j] == history[|history| - 1 - (j - 1)];
    }
  }

  lemma RolledSuffixIs(
    before: map<string, Bytes>, renumbered: map<string, Bytes>, numbers: seq<string>, history: seq<File>, file: File,
    maxFiles: nat, width: nat, s: string) returns (j: nat)
    requires Laid(before, history, maxFiles, width) && maxFiles <= 65535 && Lists(numbers, before)
    requires Renumbered(before, renumbered, numbers, Keep(maxFiles), width)
    requires s in RolledFiles(renumbered, file, maxFiles, width) && Numeric(s)
    ensures j < Min(|history| + 1, maxFiles) && s == Pad(j, width)
  {
    hide Pad, Flatten, Numeric, Shifted, Laid, Lists, Renumbered, Ascending;
    if maxFiles > 0 && s == Pad(0, width) {
      j := 0;
    } else {
      LaidNumbers(before, numbers, history, maxFiles, width);
      var i := RenumberedOnly(before, renumbered, numbers, Keep(maxFiles), width, s);
      ShiftedPad(i, width);
      j := i + 1;
    }
  }

  /** A roll after the closing of a file moves that file to the front of the history. */
  lemma RollExtendsHistory(
    before: map<string, Bytes>, renumbered: map<string, Bytes>, numbers: seq<string>, history: seq<File>, file: File,
    maxFiles: nat, width: nat)
    requires Laid(before, history, maxFiles, width) && maxFiles <= 65535 && Lists(numbers, before)
    requires Renumbered(before, renumbered, numbers, Keep(maxFiles), width)
    ensures Laid(RolledFiles(renumbered, file, maxFiles, width), history + [file], maxFiles, width)
  {
    hide Pad, Flatten, Numeric, RolledFiles, Renumbered, Lists;
    forall j | 0 <= j < Min(|history| + 1, maxFiles)
      ensures Find(RolledFiles(renumbered, file, maxFiles, width), Pad(j, width)) == Some(Flatten((history + [file])[|history| - j]))
    {
      RolledFileAt(before, renumbered, numbers, history, file, maxFiles, width, j);
    }
    forall s | s in RolledFiles(renumbered, file, maxFiles, width) && Numeric(s)
      ensures exists j :: 0 <= j < Min(|history| + 1, maxFiles) && s == Pad(j, width)
    {
      var j := RolledSuffixIs(before, renumbered, numbers, history, file, maxFiles, width, s);
    }
  }

  /** Only the last write took the file over the limit. */
  predicate Overfull(f: File, fileMaxBytes: nat) {
    f != [] && |Flatten(f)| > fileMaxBytes && |Flatten(f[..|f| - 1])| <= fileMaxBytes
  }

  /** Numbered files j - 1, ..., 0, one after the other. */
  ghost function Rolled(suffixed: map<string, Bytes>, j: nat, width: nat): Bytes
    requires forall i :: 0 <= i < j ==> Pad(i, width) in suffixed
  {
    if j == 0 then [] else suffixed[Pad(j - 1, width)] + Rolled(suffixed, j - 1, width)
  }

  lemma FlattenNewest(history: seq<File>, j: nat)
    requires 0 < j <= |history|
    ensures Flatten(Flatten(history[|history| - j..]))
            == Flatten(history[|history| - j]) + Flatten(Flatten(history[|history| - j + 1..]))
  {
    var file, rest := history[|history| - j], history[|history| - j + 1..];
    assert history[|history| - j..] == [file] + rest;
    FlattenOne(file);
    hide Flatten;
    FlattenConcat([file], rest);
    FlattenConcat(file, Flatten(rest));
  }

  lemma FlattenNone<T>(s: seq<seq<seq<T>>>)
    requires s == []
    ensures Flatten(Flatten(s)) == []
  {
  }

  lemma {:induction false} RolledIsHistory(suffixed: map<string, Bytes>, history: seq<File>, maxFiles: nat, width: nat, j: nat)
    requires Laid(suffixed, history, maxFiles, width) && j <= Min(|history|, maxFiles)
    ensures forall i :: 0 <= i < j ==> Pad(i, width) in suffixed
    ensures Rolled(suffixed, j, width) == Flatten(Flatten(history[|history| - j..]))
  {
    hide Laid, Pad, Flatten;
    forall i | 0 <= i < j ensures Pad(i, width) in suffixed { LaidAt(suffixed, history, maxFiles, width, i); }
    if j == 0 {
      FlattenNone(history[|history| - j..]);
    } else {
      RolledIsHistory(suffixed, history, maxFiles, width, j - 1);
      LaidAt(suffixed, history, maxFiles, width, j - 1);
      FlattenNewest(history, j);
    }
  }

  lemma FlattenOne<T>(x: seq<T>)
    ensures Flatten([x]) == x
  {
    assert [x][..0] == [] && Flatten<T>([]) == [];
  }

  /**
   * Conservation: the rolled files, oldest first, followed by the log file, are the end of everything
   * ever written, starting at a roll; and they are all of it until more than maxFiles files have been
   * rolled.
   */
  lemma NothingIsLost(suffixed: map<string, Bytes>, history: seq<File>, writes: File, maxFiles: nat, width: nat)
    requires Laid(suffixed, history, maxFiles, width)
    ensures forall i :: 0 <= i < Min(|history|, maxFiles) ==> Pad(i, width) in suffixed
    ensures var k := Min(|history|, maxFiles);
            Flatten(Flatten(history) + writes)
            == Flatten(Flatten(history[..|history| - k])) + (Rolled(suffixed, k, width) + Flatten(writes))
    ensures |history| <= maxFiles ==>
              Flatten(Flatten(history) + writes) == Rolled(suffixed, |history|, width) + Flatten(writes)
  {
    var k := Min(|history|, maxFiles);
    RolledIsHistory(suffixed, history, maxFiles, width, k);
    var lost, kept := history[..|history| - k], history[|history| - k..];
    FlattenNone(history[..0]);
    hide Laid, Pad, Flatten, Rolled;
    FlattenThree(history, lost, kept, writes);
  }

  lemma FlattenTwice(lost: seq<File>, kept: seq<File>)
    ensures Flatten(Flatten(lost + kept)) == Flatten(Flatten(lost)) + Flatten(Flatten(kept))
  {
    hide Flatten;
    FlattenConcat(lost, kept);
    FlattenConcat(Flatten(lost), Flatten(kept));
  }

  lemma FlattenThree(history: seq<File>, lost: seq<File>, kept: seq<File>, writes: File)
    requires history == lost + kept
    ensures Flatten(Flatten(history) + writes) == Flatten(Flatten(lost)) + (Flatten(Flatten(kept)) + Flatten(writes))
    ensures lost == [] ==> Flatten(Flatten(history) + writes) == Flatten(Flatten(kept)) + Flatten(writes)
  {
    FlattenNone<Byte>([]);
    hide Flatten;
    FlattenTwice(lost, kept);
    FlattenConcat(Flatten(history), writes);
    Regroup(Flatten(Flatten(history)), Flatten(Flatten(lost)), Flatten(Flatten(kept)), Flatten(writes));
  }

  lemma Regroup(x: Bytes, a: Bytes, b: Bytes, c: Bytes)
    requires x == a + b
    ensures x + c == a + (b + c) && (a == [] ==> x + c == b + c)
  {
  }

  function Contents(file: Option<Bytes>): Bytes {
    if file.None? then [] else file.value
  }

  /**
   * The log file and the rolled files hold all writes in order; every file that was closed, and no
   * open one, is over the limit. `size` is the counted size of the open file.
   */
  ghost predicate Accounted(
    current: Option<Bytes>, size: Option<nat>, history: seq<File>, writes: File, log: seq<Bytes>, fileMaxBytes: nat)
  {
    && (forall f :: f in history ==> Overfull(f, fileMaxBytes))
    && Flatten(history) + writes == log
    && match current
       case None => history == [] && writes == [] && size.None?
       case Some(bytes) =>
         bytes == Flatten(writes)
         && if size.Some? then size.value == |bytes| <= fileMaxBytes else Overfull(writes, fileMaxBytes)
  }

  lemma OpenAccounts(current: Option<Bytes>, history: seq<File>, writes: File, log: seq<Bytes>, fileMaxBytes: nat)
    requires Accounted(current, None, history, writes, log, fileMaxBytes)
    ensures Accounted(Some([]), Some(0), if current.None? then history else history + [writes], [], log, fileMaxBytes)
    ensures current.Some? ==> current == Some(Flatten(writes))
  {
    assert Flatten<Byte>([]) == [];
    HistoryGrows(history, writes);
    hide Flatten, Overfull;
    assert forall f :: f in history + [writes] ==> f in history || f == writes;
  }

  lemma WriteAccounts(bytes: Bytes, size: nat, history: seq<File>, writes: File, log: seq<Bytes>, fileMaxBytes: nat, p: Bytes)
    requires Accounted(Some(bytes), Some(size), history, writes, log, fileMaxBytes)
    ensures Accounted(Some(bytes + p), if size + |p| > fileMaxBytes then None else Some(size + |p|),
                      history, writes + [p], log + [p], fileMaxBytes)
  {
    WriteGrows(writes, p);
    hide Flatten;
    assert Flatten(history) + (writes + [p]) == (Flatten(history) + writes) + [p];
  }

  class LogRoller {
    const dir: Directory
    const fileMaxBytes: nat
    const maxFiles: nat
    const digits: nat
    var open: bool
    var fileSize: nat
    ghost var history: seq<File>  // the files that have been rolled, oldest first
    ghost var writes: File        // the writes to the log file
    ghost var log: seq<Bytes>     // all writes ever

    ghost predicate Valid()
      reads this, dir
    {
      && maxFiles <= 65535 && Laid(dir.suffixed, history, maxFiles, digits)
      && Accounted(dir.current, if open then Some(fileSize) else None, history, writes, log, fileMaxBytes)
    }

    /**
     * After any run of writes from a directory without numbered files, the files read oldest first
     * are the end of the log, from a roll on; and all of it while at most maxFiles files were rolled.
     */
    lemma FilesAreTheLog()
      requires Valid()
      ensures var k := Min(|history|, maxFiles);
              && (forall i :: 0 <= i < k ==> Pad(i, digits) in dir.suffixed)
              && Flatten(log) == Flatten(Flatten(history[..|history| - k])) + (Rolled(dir.suffixed, k, digits) + Contents(dir.current))
              && (k == |history| ==> Flatten(log) == Rolled(dir.suffixed, k, digits) + Contents(dir.current))
    {
      assert Contents(dir.current) == Flatten(writes);
      hide Laid, Flatten, Pad, Rolled;
      NothingIsLost(dir.suffixed, history, writes, maxFiles, digits);
    }

    /** NewLogRoller. The width of the numbers comes from a floating-point logarithm; any width will do. */
    constructor (dir: Directory, fileMaxBytes: nat, maxFiles: nat, digits: nat)
      ensures this.dir == dir && this.fileMaxBytes == fileMaxBytes && this.maxFiles == maxFiles && this.digits == digits
      ensures !open && log == []
      ensures dir.current == None && (forall s :: s in dir.suffixed ==> !Numeric(s)) && maxFiles <= 65535 ==> Valid()
    {
      this.dir, this.fileMaxBytes, this.maxFiles, this.digits := dir, fileMaxBytes, maxFiles, digits;
      open, fileSize := false, 0;
      history, writes, log := [], [], [];
      new;
      assert Flatten<Bytes>([]) == [];
    }

    /** The number suffixes in the directory, sorted; other suffixes are ignored. */
    method Numbers() returns (numbers: seq<string>)
      requires Rollable(dir.suffixed)
      ensures Lists(numbers, dir.suffixed)
    {
      var all := dir.Glob();
      numbers := [];
      for i := 0 to |all|
        invariant Ascending(numbers)
        invariant forall s :: s in numbers <==> s in all[..i] && Numeric(s)
      {
        assert all[..i + 1] == all[..i] + [all[i]];
        if Numeric(all[i]) {
          forall y | y in numbers ensures Val(y) != Val(all[i]) {
            assert y in all[..i] && all[i] !in all[..i];
            assert y in dir.suffixed && all[i] in dir.suffixed;
          }
          InsertAscends(numbers, all[i]);
          numbers := Insert(numbers, all[i]);
        }
      }
      assert all[..|all|] == all;
    }

    /** File i is renamed if it survives, and removed otherwise. */
    method RollOne(found: seq<string>, ghost before: map<string, Bytes>, i: nat)
      requires Rollable(before) && Lists(found, before) && i < |found|
      requires dir.suffixed == Staged(before, found, Keep(maxFiles), digits, i + 1)
      modifies dir`suffixed
      ensures dir.suffixed == Staged(before, found, Keep(maxFiles), digits, i)
    {
      TargetIsFree(before, found, Keep(maxFiles), digits, i);
      assert found[i] in found && AllDigits(found[i]);
      hide Val, Lists, Rollable, Pad;
      if i + 1 >= maxFiles {
        dir.Remove(found[i]);
      } else {
        dir.Rename(found[i], Shifted(found[i], digits));
      }
    }

    /** roll, on any directory whose numbers are distinct. */
    method Roll() returns (ghost numbers: seq<string>, ghost renumbered: map<string, Bytes>)
      requires Rollable(dir.suffixed)
      modifies dir
      ensures Lists(numbers, old(dir.suffixed))
      ensures old(dir.current).None? ==> dir.current == None && dir.suffixed == old(dir.suffixed)
      ensures old(dir.current).Some? ==>
                && Renumbered(old(dir.suffixed), renumbered, numbers, Keep(maxFiles), digits)
                && (if maxFiles == 0 then dir.suffixed == renumbered && dir.current == old(dir.current)
                    else dir.suffixed == renumbered[Pad(0, digits) := old(dir.current).value] && dir.current == None)
    {
      var found := Numbers();
      numbers, renumbered := found, map[];
      if dir.current.None? { return; }
      ghost var before, keep := dir.suffixed, Keep(maxFiles);
      var i := |found|;
      while i > 0
        invariant 0 <= i <= |found|
        invariant dir.suffixed == Staged(before, found, keep, digits, i)
        invariant dir.current == old(dir.current)
      {
        hide Staged, Rollable;
        i := i - 1;
        RollOne(found, before, i);
      }
      StagesRenumber(before, found, keep, digits);
      renumbered := dir.suffixed;
      if maxFiles > 0 {
        dir.RenameCurrent(Pad(0, digits));
      }
    }

    /** openFile: roll, then start a new log file. */
    method OpenFile()
      requires Valid() && !open
      modifies dir, this
      ensures Valid() && open && dir.current == Some([]) && writes == [] && log == old(log) && fileSize == 0
      ensures history == if old(dir.current).None? then old(history) else old(history) + [old(writes)]
      ensures forall s :: !Numeric(s) ==> Find(dir.suffixed, s) == Find(old(dir.suffixed), s)
    {
      hide Laid, Flatten, Lists, Rollable, Accounted, Renumbered, Numeric, Find, Pad;
      LaidIsRollable(dir.suffixed, history, maxFiles, digits);
      OpenAccounts(dir.current, history, writes, log, fileMaxBytes);
      ghost var before := dir.suffixed;
      ghost var numbers, renumbered := Roll();
      if old(dir.current).Some? {
        RollKeeps(before, renumbered, dir.suffixed, numbers, history, writes, maxFiles, digits);
      }
      ghost var h := if old(dir.current).None? then history else history + [writes];
      history, writes := h, [];
      dir.Create();
      open, fileSize := true, 0;
    }

    /** The end of Write: the bytes are appended, and a file that is too long is closed. */
    method Put(p: Bytes)
      requires Valid() && open
      modifies dir, this
      ensures Valid() && log == old(log) + [p] && history == old(history) && writes == old(writes) + [p]
      ensures dir.suffixed == old(dir.suffixed) && old(dir.current).Some?
      ensures dir.current == Some(old(dir.current).value + p) && (open <==> |dir.current.value| <= fileMaxBytes)
    {
      assert open ==> dir.current.Some? && fileSize == |dir.current.value|;
      hide Laid, Flatten, Accounted;
      WriteAccounts(dir.current.value, fileSize, history, writes, log, fileMaxBytes, p);
      dir.Append(p);
      writes, log := writes + [p], log + [p];
      fileSize := fileSize + |p|;
      if fileSize > fileMaxBytes {
        open := false;
      }
    }

    /** Write. */
    method Write(p: Bytes) returns (written: nat)
      requires Valid()
      modifies dir, this
      ensures Valid() && written == |p| && log == old(log) + [p]
      ensures history == if old(open) || old(dir.current).None? then old(history) else old(history) + [old(writes)]
      ensures writes == if old(open) then old(writes) + [p] else [p]
      ensures dir.current == Some((if old(open) && old(dir.current).Some? then old(dir.current).value else []) + p)
      ensures open <==> |dir.current.value| <= fileMaxBytes
      ensures forall s :: !Numeric(s) ==> Find(dir.suffixed, s) == Find(old(dir.suffixed), s)
    {
      hide Laid, Flatten, Numeric, Find, Valid;
      if !open {
        OpenFile();
      }
      Put(p);
      written := |p|;
    }
  }

  lemma RollKeeps(
    before: map<string, Bytes>, renumbered: map<string, Bytes>, after: map<string, Bytes>, numbers: seq<string>,
    history: seq<File>, file: File, maxFiles: nat, width: nat)
    requires Laid(before, history, maxFiles, width) && maxFiles <= 65535 && Lists(numbers, before)
    requires Renumbered(before, renumbered, numbers, Keep(maxFiles), width)
    requires after == if maxFiles == 0 then renumbered else renumbered[Pad(0, width) := Flatten(file)]
    ensures Laid(after, history + [file], maxFiles, width)
    ensures forall s :: !Numeric(s) ==> Find(after, s) == Find(before, s)
  {
    hide Laid, Lists, Renumbered, Numeric, Find, Pad, Flatten;
    assert after == RolledFiles(renumbered, file, maxFiles, width);
    RollExtendsHistory(before, renumbered, numbers, history, file, maxFiles, width);
    OthersUntouched(before, renumbered, numbers, file, maxFiles, width);
  }

  lemma OthersUntouched(
    before: map<string, Bytes>, renumbered: map<string, Bytes>, numbers: seq<string>, file: File, maxFiles: nat, width: nat)
    requires Lists(numbers, before) && Renumbered(before, renumbered, numbers, Keep(maxFiles), width)
    ensures forall s :: !Numeric(s) ==> Find(RolledFiles(renumbered, file, maxFiles, width), s) == Find(before, s)
  {
    assert Numeric(Pad(0, width));
    hide Numeric, Pad;
  }

  lemma HistoryGrows(history: seq<File>, file: File)
    ensures Flatten(history + [file]) + [] == Flatten(history) + file
  {
    FlattenConcat(history, [file]);
    FlattenOne(file);
  }

  lemma WriteGrows(writes: File, p: Bytes)
    ensures Flatten(writes + [p]) == Flatten(writes) + p && (writes + [p])[..|writes|] == writes
  {
    FlattenConcat(writes, [p]);
    FlattenOne(p);
  }
}
