/** PPD statements: grouping them and applying constraints (cups/translate-ppd.go). */
module Ppd {
  import opened Collections

  datatype Statement = Statement(mainKeyword: string, optionKeyword: string, translation: string, value: string)

  predicate HasPrefix(s: string, prefix: string) { prefix <= s }

  const DEFAULT := "Default"
  const INSTALLABLE_OPTIONS := "InstallableOptions"

  // ---- Grouping (groupStatements) ----

  /** The main keywords that groupStatements tells apart. */
  datatype Keyword = OpenUI | CloseUI | OpenGroup | CloseGroup | OpenSubGroup | CloseSubGroup | UIConstraints | Other

  function KeywordOf(mainKeyword: string): Keyword {
    if mainKeyword == "OpenUI" || mainKeyword == "JCLOpenUI" then OpenUI
    else if mainKeyword == "CloseUI" || mainKeyword == "JCLCloseUI" then CloseUI
    else if mainKeyword == "OpenGroup" then OpenGroup
    else if mainKeyword == "CloseGroup" then CloseGroup
    else if mainKeyword == "OpenSubGroup" then OpenSubGroup
    else if mainKeyword == "CloseSubGroup" then CloseSubGroup
    else if mainKeyword == "UIConstraints" then UIConstraints
    else Other
  }

  predicate IsOpenUI(s: Statement) { KeywordOf(s.mainKeyword) == OpenUI }

  predicate IsCloseUI(s: Statement) { KeywordOf(s.mainKeyword) == CloseUI }

  predicate OpensInstallable(s: Statement) {
    KeywordOf(s.mainKeyword) == OpenGroup && HasPrefix(s.value, INSTALLABLE_OPTIONS)
  }

  predicate ClosesInstallable(s: Statement) {
    KeywordOf(s.mainKeyword) == CloseGroup && HasPrefix(s.value, INSTALLABLE_OPTIONS)
  }

  /** Statements that only bracket others, and are not kept. */
  predicate IsBracket(s: Statement) {
    !KeywordOf(s.mainKeyword).OpenUI? && !KeywordOf(s.mainKeyword).UIConstraints? && !KeywordOf(s.mainKeyword).Other?
  }

  /** The last InstallableOptions group opened or closed in p was opened. */
  predicate InsideInstallable(p: seq<Statement>) {
    p != [] &&
    var s := p[|p| - 1];
    OpensInstallable(s) || (!ClosesInstallable(s) && InsideInstallable(p[..|p| - 1]))
  }

  /** The last UI opened or closed in p was opened. */
  predicate InsideOpenUI(p: seq<Statement>) {
    p != [] &&
    var s := p[|p| - 1];
    IsOpenUI(s) || (!IsCloseUI(s) && InsideOpenUI(p[..|p| - 1]))
  }

  /** A UI was opened in p, inside (or else outside) an InstallableOptions group. */
  ghost predicate HasHeader(p: seq<Statement>, installable: bool) {
    exists j :: 0 <= j < |p| && IsOpenUI(p[j]) && InsideInstallable(p[..j]) == installable
  }

  /** Where a statement goes. */
  datatype Sink = OpenUIs | Installables | Constraints | StandAlones | Nowhere

  /** Where statement s goes after the statements p. */
  ghost function SinkOf(p: seq<Statement>, s: Statement): Sink {
    if IsBracket(s) then Nowhere
    else if KeywordOf(s.mainKeyword) == UIConstraints then Constraints
    else if IsOpenUI(s) then (if InsideInstallable(p) then Installables else OpenUIs)
    else if InsideInstallable(p) then (if HasHeader(p, true) then Installables else Nowhere)
    else if InsideOpenUI(p) then (if HasHeader(p, false) then OpenUIs else Nowhere)
    else StandAlones
  }

  /** The statements that go to a sink, in order. */
  ghost function Selected(statements: seq<Statement>, sink: Sink): seq<Statement> {
    if statements == [] then []
    else
      var p, s := statements[..|statements| - 1], statements[|statements| - 1];
      Selected(p, sink) + if SinkOf(p, s) == sink then [s] else []
  }

  /** A group is a header and the statements up to the next header. */
  predicate IsGroup(g: seq<Statement>) {
    g != [] && IsOpenUI(g[0]) && forall k :: 0 < k < |g| ==> !IsOpenUI(g[k])
  }

  predicate Groups(gs: seq<seq<Statement>>) { forall g :: g in gs ==> IsGroup(g) }

  function AppendToLast(gs: seq<seq<Statement>>, s: Statement): seq<seq<Statement>>
    requires gs != []
  {
    gs[..|gs| - 1] + [gs[|gs| - 1] + [s]]
  }

  lemma AppendToLastGroups(gs: seq<seq<Statement>>, s: Statement)
    requires gs != [] && Groups(gs) && !IsOpenUI(s)
    ensures Groups(AppendToLast(gs, s)) && Flatten(AppendToLast(gs, s)) == Flatten(gs) + [s]
  {
    var last := gs[|gs| - 1];
    assert last in gs;
    assert Flatten(gs) + [s] == Flatten(gs[..|gs| - 1]) + (last + [s]);
    assert AppendToLast(gs, s)[..|gs| - 1] == gs[..|gs| - 1];
    forall g | g in AppendToLast(gs, s) ensures IsGroup(g) {
      assert g in gs || g == last + [s];
    }
  }

  lemma NewGroup(gs: seq<seq<Statement>>, s: Statement)
    requires Groups(gs) && IsOpenUI(s)
    ensures Groups(gs + [[s]]) && Flatten(gs + [[s]]) == Flatten(gs) + [s]
  {
    assert (gs + [[s]])[..|gs|] == gs;
  }

  lemma HeaderGrows(p: seq<Statement>, s: Statement, installable: bool)
    ensures HasHeader(p + [s], installable) <==>
            HasHeader(p, installable) || (IsOpenUI(s) && InsideInstallable(p) == installable)
  {
    hide InsideInstallable, IsOpenUI;
    assert forall j :: 0 <= j <= |p| ==> (p + [s])[..j] == p[..j];
    assert p[..|p|] == p;
    if HasHeader(p, installable) {
      var j :| 0 <= j < |p| && IsOpenUI(p[j]) && InsideInstallable(p[..j]) == installable;
      assert (p + [s])[j] == p[j];
    }
    if IsOpenUI(s) && InsideInstallable(p) == installable {
      assert (p + [s])[|p|] == s;
    }
  }

  lemma InsideStep(statements: seq<Statement>, i: nat)
    requires i < |statements|
    ensures var p, q, s := statements[..i], statements[..i + 1], statements[i];
            && InsideInstallable(q) == (OpensInstallable(s) || (!ClosesInstallable(s) && InsideInstallable(p)))
            && InsideOpenUI(q) == (IsOpenUI(s) || (!IsCloseUI(s) && InsideOpenUI(p)))
            && (HasHeader(q, true) <==> HasHeader(p, true) || (IsOpenUI(s) && InsideInstallable(p)))
            && (HasHeader(q, false) <==> HasHeader(p, false) || (IsOpenUI(s) && !InsideInstallable(p)))
  {
    var p, q, s := statements[..i], statements[..i + 1], statements[i];
    assert q == p + [s] && q[..|q| - 1] == p;
    HeaderGrows(p, s, true);
    HeaderGrows(p, s, false);
    hide HasHeader, KeywordOf;
  }

  /** One more statement. */
  lemma PrefixStep(statements: seq<Statement>, i: nat)
    requires i < |statements|
    ensures var p, q, s := statements[..i], statements[..i + 1], statements[i];
            && InsideInstallable(q) == (OpensInstallable(s) || (!ClosesInstallable(s) && InsideInstallable(p)))
            && InsideOpenUI(q) == (IsOpenUI(s) || (!IsCloseUI(s) && InsideOpenUI(p)))
            && (HasHeader(q, true) <==> HasHeader(p, true) || (IsOpenUI(s) && InsideInstallable(p)))
            && (HasHeader(q, false) <==> HasHeader(p, false) || (IsOpenUI(s) && !InsideInstallable(p)))
            && Selected(q, OpenUIs) == Selected(p, OpenUIs) + (if SinkOf(p, s) == OpenUIs then [s] else [])
            && Selected(q, Installables) == Selected(p, Installables) + (if SinkOf(p, s) == Installables then [s] else [])
            && Selected(q, Constraints) == Selected(p, Constraints) + (if SinkOf(p, s) == Constraints then [s] else [])
            && Selected(q, StandAlones) == Selected(p, StandAlones) + (if SinkOf(p, s) == StandAlones then [s] else [])
  {
    var p, q, s := statements[..i], statements[..i + 1], statements[i];
    assert q == p + [s] && q[..|q| - 1] == p;
    InsideStep(statements, i);
    hide SinkOf, HasHeader, KeywordOf, InsideInstallable, InsideOpenUI;
  }

  /** The groups for one sink are made of the statements of p that go there. */
  ghost predicate Grouped(gs: seq<seq<Statement>>, p: seq<Statement>, sink: Sink) {
    Groups(gs) && Flatten(gs) == Selected(p, sink) && (gs != [] <==> HasHeader(p, sink == Installables))
  }

  ghost function NextGroups(gs: seq<seq<Statement>>, p: seq<Statement>, s: Statement, sink: Sink): seq<seq<Statement>> {
    if SinkOf(p, s) != sink then gs
    else if IsOpenUI(s) then gs + [[s]]
    else if gs == [] then gs
    else AppendToLast(gs, s)
  }

  lemma GroupedNext(gs: seq<seq<Statement>>, statements: seq<Statement>, i: nat, sink: Sink)
    requires i < |statements| && sink in {OpenUIs, Installables} && Grouped(gs, statements[..i], sink)
    ensures Grouped(NextGroups(gs, statements[..i], statements[i], sink), statements[..i + 1], sink)
    ensures gs != [] <==> HasHeader(statements[..i], sink == Installables)
  {
    var s := statements[i];
    PrefixStep(statements, i);
    if IsOpenUI(s) { NewGroup(gs, s); } else if gs != [] { AppendToLastGroups(gs, s); }
    hide Flatten, Selected, InsideInstallable, InsideOpenUI, HasHeader, Groups, KeywordOf, AppendToLast;
  }

  /** What groupStatements has collected so far. */
  datatype Grouping = Grouping(
    openUIs: seq<seq<Statement>>, installables: seq<seq<Statement>>, uiConstraints: seq<Statement>, standAlones: seq<Statement>,
    insideOpenUI: bool, insideInstallable: bool)

  /** The grouping of the statements p. */
  ghost predicate IsGrouping(g: Grouping, p: seq<Statement>) {
    && g.insideInstallable == InsideInstallable(p) && g.insideOpenUI == InsideOpenUI(p)
    && Grouped(g.openUIs, p, OpenUIs) && Grouped(g.installables, p, Installables)
    && g.uiConstraints == Selected(p, Constraints) && g.standAlones == Selected(p, StandAlones)
  }

  /** One round of the loop. */
  method GroupOne(g: Grouping, s: Statement, ghost statements: seq<Statement>, ghost i: nat) returns (n: Grouping)
    requires i < |statements| && s == statements[i] && IsGrouping(g, statements[..i])
    ensures IsGrouping(n, statements[..i + 1])
  {
    n := g;
    hide Grouped, Selected, InsideInstallable, InsideOpenUI, HasHeader, HasPrefix, KeywordOf, AppendToLast;
    PrefixStep(statements, i);
    GroupedNext(g.openUIs, statements, i, OpenUIs);
    GroupedNext(g.installables, statements, i, Installables);
    match KeywordOf(s.mainKeyword)
    case OpenUI =>
      n := n.(insideOpenUI := true);
      if g.insideInstallable {
        n := n.(installables := g.installables + [[s]]);
      } else {
        n := n.(openUIs := g.openUIs + [[s]]);
      }
    case CloseUI =>
      n := n.(insideOpenUI := false);
    case OpenGroup =>
      if HasPrefix(s.value, INSTALLABLE_OPTIONS) { n := n.(insideInstallable := true); }
    case CloseGroup =>
      if HasPrefix(s.value, INSTALLABLE_OPTIONS) { n := n.(insideInstallable := false); }
    case OpenSubGroup =>
    case CloseSubGroup =>
    case UIConstraints =>
      n := n.(uiConstraints := g.uiConstraints + [s]);
    case Other =>
      if g.insideInstallable {
        if |g.installables| > 0 { n := n.(installables := AppendToLast(g.installables, s)); }
      } else if g.insideOpenUI {
        if |g.openUIs| > 0 { n := n.(openUIs := AppendToLast(g.openUIs, s)); }
      } else {
        n := n.(standAlones := g.standAlones + [s]);
      }
  }

  // ---- What grouping means ----

  function Concat(gs: seq<seq<Statement>>): seq<Statement> {
    if gs == [] then [] else gs[0] + Concat(gs[1..])
  }

  lemma {:induction false} ConcatIsFlatten(gs: seq<seq<Statement>>)
    ensures Concat(gs) == Flatten(gs)
  {
    if gs != [] {
      assert gs == [gs[0]] + gs[1..];
      FlattenConcat([gs[0]], gs[1..]);
      assert [gs[0]][..0] == [] && Flatten<Statement>([]) == [];
      ConcatIsFlatten(gs[1..]);
    }
  }

  lemma ConcatStartsWithHeader(gs: seq<seq<Statement>>)
    requires Groups(gs) && gs != []
    ensures IsGroup(gs[0]) && Concat(gs) != [] && Concat(gs)[0] == gs[0][0] && Groups(gs[1..])
  {
    assert gs[0] in gs;
  }

  /** The first group ends where the second header stands. */
  lemma FirstGroupIsNotShorter(g: seq<Statement>, rest: seq<seq<Statement>>, h: seq<Statement>, others: seq<seq<Statement>>)
    requires IsGroup(g) && IsGroup(h) && Groups(rest) && g + Concat(rest) == h + Concat(others)
    ensures |h| <= |g|
  {
    var t := g + Concat(rest);
    assert forall k :: 0 <= k < |h| ==> t[k] == (h + Concat(others))[k] == h[k];
    if rest != [] {
      ConcatStartsWithHeader(rest);
      assert t[|g|] == Concat(rest)[0];
    }
  }

  lemma {:induction false} ConcatIsUnique(a: seq<seq<Statement>>, b: seq<seq<Statement>>)
    requires Groups(a) && Groups(b) && Concat(a) == Concat(b)
    ensures a == b
  {
    if a != [] { ConcatStartsWithHeader(a); }
    if b != [] { ConcatStartsWithHeader(b); }
    hide IsGroup, Groups;
    if a != [] && b != [] {
      FirstGroupIsNotShorter(a[0], a[1..], b[0], b[1..]);
      FirstGroupIsNotShorter(b[0], b[1..], a[0], a[1..]);
      assert (a[0] + Concat(a[1..]))[..|a[0]|] == a[0];
      assert (b[0] + Concat(b[1..]))[..|a[0]|] == b[0];
      assert (a[0] + Concat(a[1..]))[|a[0]|..] == Concat(a[1..]);
      assert (b[0] + Concat(b[1..]))[|a[0]|..] == Concat(b[1..]);
      ConcatIsUnique(a[1..], b[1..]);
      assert a == [a[0]] + a[1..] && b == [b[0]] + b[1..];
    }
  }

  /** The groups are determined by the statements in them: no other split has its headers in front. */
  lemma GroupingIsUnique(a: seq<seq<Statement>>, b: seq<seq<Statement>>)
    requires Groups(a) && Groups(b) && Flatten(a) == Flatten(b)
    ensures a == b
  {
    ConcatIsFlatten(a);
    ConcatIsFlatten(b);
    ConcatIsUnique(a, b);
  }

  ghost function Times(s: seq<Statement>, x: Statement): nat { multiset(s)[x] }

  lemma TimesAppend(s: seq<Statement>, t: Statement, x: Statement)
    ensures Times(s + [t], x) == Times(s, x) + if t == x then 1 else 0
    ensures Times(s + [], x) == Times(s, x)
  {
    assert s + [] == s;
  }

  lemma SelectTimes(p: seq<Statement>, s: Statement, sink: Sink, x: Statement)
    ensures Times(Selected(p + [s], sink), x) == Times(Selected(p, sink), x) + if SinkOf(p, s) == sink && s == x then 1 else 0
  {
    assert (p + [s])[..|p|] == p;
    TimesAppend(Selected(p, sink), s, x);
    hide SinkOf, Times;
  }

  lemma {:induction false} SelectsTimes(statements: seq<Statement>, x: Statement)
    ensures Times(Selected(statements, OpenUIs), x) + Times(Selected(statements, Installables), x)
            + Times(Selected(statements, Constraints), x) + Times(Selected(statements, StandAlones), x)
            + Times(Selected(statements, Nowhere), x) == Times(statements, x)
  {
    if statements == [] {
      assert forall sink :: Selected(statements, sink) == [];
    } else {
      hide SinkOf, Selected, Times;
      var p, s := statements[..|statements| - 1], statements[|statements| - 1];
      assert statements == p + [s];
      SelectsTimes(p, x);
      TimesAppend(p, s, x);
      SelectTimes(p, s, OpenUIs, x);
      SelectTimes(p, s, Installables, x);
      SelectTimes(p, s, Constraints, x);
      SelectTimes(p, s, StandAlones, x);
      SelectTimes(p, s, Nowhere, x);
    }
    hide SinkOf, Selected, Times;
  }

  /** Every statement is selected for exactly one sink. */
  lemma EveryStatementGoesSomewhere(statements: seq<Statement>)
    ensures multiset(Selected(statements, OpenUIs)) + multiset(Selected(statements, Installables))
            + multiset(Selected(statements, Constraints)) + multiset(Selected(statements, StandAlones))
            + multiset(Selected(statements, Nowhere)) == multiset(statements)
  {
    hide Selected;
    var all := multiset(Selected(statements, OpenUIs)) + multiset(Selected(statements, Installables))
      + multiset(Selected(statements, Constraints)) + multiset(Selected(statements, StandAlones))
      + multiset(Selected(statements, Nowhere));
    forall x ensures all[x] == multiset(statements)[x] { SelectsTimes(statements, x); }
  }

  /** A statement that is thrown away although it brackets nothing. */
  ghost predicate Lost(statements: seq<Statement>, i: nat)
    requires i < |statements|
  {
    SinkOf(statements[..i], statements[i]) == Nowhere && !IsBracket(statements[i])
  }

  /** No InstallableOptions group is closed while a UI is open. */
  predicate WellBracketed(statements: seq<Statement>) {
    forall i :: 0 <= i < |statements| && ClosesInstallable(statements[i]) ==> !InsideOpenUI(statements[..i])
  }

  lemma NothingIsOpenAtFirst()
    ensures !InsideOpenUI([])
  {
  }

  lemma OpenUIAt(statements: seq<Statement>, i: nat)
    requires i < |statements| && WellBracketed(statements)
    ensures var s := statements[i];
            && (IsOpenUI(s) ==> !ClosesInstallable(s))
            && (ClosesInstallable(s) ==> !InsideOpenUI(statements[..i]))
  {
    hide InsideOpenUI;
  }

  lemma {:induction false} OpenUIHasHeader(statements: seq<Statement>, i: nat)
    requires WellBracketed(statements) && i <= |statements|
    requires InsideOpenUI(statements[..i]) && !InsideInstallable(statements[..i])
    ensures HasHeader(statements[..i], false)
  {
    NothingIsOpenAtFirst();
    hide InsideOpenUI, InsideInstallable, HasHeader, WellBracketed, ClosesInstallable, OpensInstallable, IsOpenUI, IsCloseUI;
    assert |statements[..i]| == i;
    InsideStep(statements, i - 1);
    OpenUIAt(statements, i - 1);
    if !IsOpenUI(statements[i - 1]) { OpenUIHasHeader(statements, i - 1); }
  }

  /** The guards under which groupStatements throws a statement away. */
  lemma LostByGuards(statements: seq<Statement>, i: nat)
    requires i < |statements|
    ensures var p, s := statements[..i], statements[i];
            Lost(statements, i) <==>
              && KeywordOf(s.mainKeyword) == Other
              && if InsideInstallable(p) then !HasHeader(p, true) else InsideOpenUI(p) && !HasHeader(p, false)
  {
    hide KeywordOf, InsideInstallable, InsideOpenUI, HasHeader;
  }

  // ---- By keywords and positions ----

  predicate IsHeaderKeyword(k: string) { k == "OpenUI" || k == "JCLOpenUI" }

  predicate IsFooterKeyword(k: string) { k == "CloseUI" || k == "JCLCloseUI" }

  predicate IsGroupKeyword(k: string) { k == "OpenGroup" || k == "CloseGroup" || k == "OpenSubGroup" || k == "CloseSubGroup" }

  lemma KeywordsMean(k: string)
    ensures KeywordOf(k) == OpenUI <==> IsHeaderKeyword(k)
    ensures KeywordOf(k) == CloseUI <==> IsFooterKeyword(k)
    ensures KeywordOf(k) == OpenGroup <==> k == "OpenGroup"
    ensures KeywordOf(k) == CloseGroup <==> k == "CloseGroup"
    ensures KeywordOf(k) == UIConstraints <==> k == "UIConstraints"
    ensures KeywordOf(k) == Other <==>
              !IsHeaderKeyword(k) && !IsFooterKeyword(k) && !IsGroupKeyword(k) && k != "UIConstraints"
  {
    assert "OpenUI"[0] == 'O' && |"OpenUI"| == 6 && |"JCLOpenUI"| == 9 && |"CloseUI"| == 7 && |"JCLCloseUI"| == 10;
    assert |"OpenGroup"| == 9 && |"CloseGroup"| == 10 && |"OpenSubGroup"| == 12 && |"CloseSubGroup"| == 13 && |"UIConstraints"| == 13;
    assert "JCLOpenUI"[0] == 'J' && "OpenGroup"[0] == 'O' && "JCLCloseUI"[0] == 'J' && "CloseGroup"[0] == 'C';
    assert "CloseSubGroup"[0] == 'C' && "UIConstraints"[0] == 'U';
  }

  /** An InstallableOptions group is opened at k and not closed before i. */
  predicate GroupOpenFrom(statements: seq<Statement>, k: int, i: nat)
    requires i <= |statements|
  {
    && 0 <= k < i && statements[k].mainKeyword == "OpenGroup" && "InstallableOptions" <= statements[k].value
    && forall m :: k < m < i ==> !(statements[m].mainKeyword == "CloseGroup" && "InstallableOptions" <= statements[m].value)
  }

  /** One is closed at j, and none is opened after that and before i. */
  predicate GroupClosedFrom(statements: seq<Statement>, j: int, i: nat)
    requires i <= |statements|
  {
    && 0 <= j < i && statements[j].mainKeyword == "CloseGroup" && "InstallableOptions" <= statements[j].value
    && forall m :: j < m < i ==> !(statements[m].mainKeyword == "OpenGroup" && "InstallableOptions" <= statements[m].value)
  }

  /** A UI is opened at k and not closed before i. */
  predicate UIOpenFrom(statements: seq<Statement>, k: int, i: nat)
    requires i <= |statements|
  {
    && 0 <= k < i && IsHeaderKeyword(statements[k].mainKeyword)
    && forall m :: k < m < i ==> !IsFooterKeyword(statements[m].mainKeyword)
  }

  lemma GroupOpens(s: Statement)
    ensures OpensInstallable(s) <==> s.mainKeyword == "OpenGroup" && "InstallableOptions" <= s.value
    ensures ClosesInstallable(s) <==> s.mainKeyword == "CloseGroup" && "InstallableOptions" <= s.value
    ensures IsOpenUI(s) <==> IsHeaderKeyword(s.mainKeyword)
    ensures IsCloseUI(s) <==> IsFooterKeyword(s.mainKeyword)
  {
    KeywordsMean(s.mainKeyword);
    hide KeywordOf;
  }

  /** The same in terms of what the grouping goes by. */
  lemma OpenFromMeans(statements: seq<Statement>, k: int, i: nat)
    requires i <= |statements|
    ensures GroupOpenFrom(statements, k, i) <==>
              0 <= k < i && OpensInstallable(statements[k]) && forall m :: k < m < i ==> !ClosesInstallable(statements[m])
    ensures GroupClosedFrom(statements, k, i) <==>
              0 <= k < i && ClosesInstallable(statements[k]) && forall m :: k < m < i ==> !OpensInstallable(statements[m])
    ensures UIOpenFrom(statements, k, i) <==>
              0 <= k < i && IsOpenUI(statements[k]) && forall m :: k < m < i ==> !IsCloseUI(statements[m])
  {
    hide OpensInstallable, ClosesInstallable, IsOpenUI, IsCloseUI, IsHeaderKeyword, IsFooterKeyword;
    forall m | 0 <= m < i
      ensures OpensInstallable(statements[m]) <==> statements[m].mainKeyword == "OpenGroup" && "InstallableOptions" <= statements[m].value
      ensures ClosesInstallable(statements[m]) <==> statements[m].mainKeyword == "CloseGroup" && "InstallableOptions" <= statements[m].value
      ensures IsOpenUI(statements[m]) <==> IsHeaderKeyword(statements[m].mainKeyword)
      ensures IsCloseUI(statements[m]) <==> IsFooterKeyword(statements[m].mainKeyword)
    {
      GroupOpens(statements[m]);
    }
  }

  /** What is open stays open until it is closed. */
  lemma OpenFromNext(statements: seq<Statement>, k: int, i: nat)
    requires 0 < i <= |statements|
    ensures IsOpenUI(statements[i - 1]) ==> UIOpenFrom(statements, i - 1, i)
    ensures UIOpenFrom(statements, k, i - 1) && !IsCloseUI(statements[i - 1]) ==> UIOpenFrom(statements, k, i)
    ensures OpensInstallable(statements[i - 1]) ==> GroupOpenFrom(statements, i - 1, i)
    ensures GroupOpenFrom(statements, k, i - 1) && !ClosesInstallable(statements[i - 1]) ==> GroupOpenFrom(statements, k, i)
  {
    GroupOpens(statements[i - 1]);
    hide IsOpenUI, IsCloseUI, OpensInstallable, ClosesInstallable, IsHeaderKeyword, IsFooterKeyword;
  }

  lemma InstallableAfter(statements: seq<Statement>, i: nat)
    requires i < |statements|
    ensures InsideInstallable(statements[..i + 1]) ==
            (OpensInstallable(statements[i]) || (!ClosesInstallable(statements[i]) && InsideInstallable(statements[..i])))
  {
    assert statements[..i + 1][..i] == statements[..i];
    hide OpensInstallable, ClosesInstallable;
  }

  lemma OpenUIAfter(statements: seq<Statement>, i: nat)
    requires i < |statements|
    ensures InsideOpenUI(statements[..i + 1]) ==
            (IsOpenUI(statements[i]) || (!IsCloseUI(statements[i]) && InsideOpenUI(statements[..i])))
  {
    assert statements[..i + 1][..i] == statements[..i];
    hide IsOpenUI, IsCloseUI;
  }

  lemma {:induction false} OpenIsInside(statements: seq<Statement>, k: nat, i: nat)
    requires i <= |statements| && GroupOpenFrom(statements, k, i)
    ensures InsideInstallable(statements[..i])
  {
    OpenFromMeans(statements, k, i);
    OpenFromMeans(statements, k, i - 1);
    InstallableAfter(statements, i - 1);
    hide InsideInstallable, OpensInstallable, ClosesInstallable, GroupOpenFrom, GroupClosedFrom, UIOpenFrom;
    if k < i - 1 { OpenIsInside(statements, k, i - 1); }
  }

  lemma {:induction false} InsideIsOpen(statements: seq<Statement>, i: nat) returns (k: nat)
    requires i <= |statements| && InsideInstallable(statements[..i])
    ensures GroupOpenFrom(statements, k, i)
  {
    assert |statements[..i]| == i;
    InstallableAfter(statements, i - 1);
    hide *;
    k := i - 1;
    if !OpensInstallable(statements[i - 1]) { k := InsideIsOpen(statements, i - 1); }
    OpenFromNext(statements, k, i);
  }

  lemma {:induction false} OpenIsInsideUI(statements: seq<Statement>, k: nat, i: nat)
    requires i <= |statements| && UIOpenFrom(statements, k, i)
    ensures InsideOpenUI(statements[..i])
  {
    OpenFromMeans(statements, k, i);
    OpenFromMeans(statements, k, i - 1);
    OpenUIAfter(statements, i - 1);
    hide InsideOpenUI, IsOpenUI, IsCloseUI, GroupOpenFrom, GroupClosedFrom, UIOpenFrom;
    if k < i - 1 { OpenIsInsideUI(statements, k, i - 1); }
  }

  lemma {:induction false} InsideUIIsOpen(statements: seq<Statement>, i: nat) returns (k: nat)
    requires i <= |statements| && InsideOpenUI(statements[..i])
    ensures UIOpenFrom(statements, k, i)
  {
    assert |statements[..i]| == i;
    OpenUIAfter(statements, i - 1);
    hide *;
    k := i - 1;
    if !IsOpenUI(statements[i - 1]) { k := InsideUIIsOpen(statements, i - 1); }
    OpenFromNext(statements, k, i);
  }

  /** Whoever was inside and is outside has passed the end of a group. */
  lemma {:induction false} ClosedBetween(statements: seq<Statement>, k: nat, i: nat) returns (j: nat)
    requires k <= i <= |statements| && InsideInstallable(statements[..k]) && !InsideInstallable(statements[..i])
    ensures k <= j && GroupClosedFrom(statements, j, i)
  {
    hide InsideInstallable, OpensInstallable, ClosesInstallable, GroupOpenFrom, GroupClosedFrom, UIOpenFrom;
    assert k < i;
    InstallableAfter(statements, i - 1);
    if ClosesInstallable(statements[i - 1]) {
      j := i - 1;
    } else {
      j := ClosedBetween(statements, k, i - 1);
      OpenFromMeans(statements, j, i - 1);
    }
    OpenFromMeans(statements, j, i);
  }

  lemma {:induction false} ClosedIsOutside(statements: seq<Statement>, j: nat, i: nat)
    requires i <= |statements| && GroupClosedFrom(statements, j, i)
    ensures !InsideInstallable(statements[..i])
  {
    ClosedBefore(statements, j, i);
    hide *;
    var last := i - 1;
    assert last + 1 == i;
    InstallableAfter(statements, last);
    ClosesIsNotOpens(statements[last]);
    if j < last { ClosedIsOutside(statements, j, last); }
  }

  lemma ClosedBefore(statements: seq<Statement>, j: nat, i: nat)
    requires i <= |statements| && GroupClosedFrom(statements, j, i)
    ensures j < i && (j == i - 1 ==> ClosesInstallable(statements[i - 1]))
    ensures j < i - 1 ==> GroupClosedFrom(statements, j, i - 1) && !OpensInstallable(statements[i - 1])
  {
    GroupOpens(statements[i - 1]);
    hide ClosesInstallable, OpensInstallable;
  }

  lemma ClosesIsNotOpens(s: Statement)
    ensures !(ClosesInstallable(s) && OpensInstallable(s)) && !(IsOpenUI(s) && (ClosesInstallable(s) || OpensInstallable(s)))
  {
  }

  /** In an InstallableOptions group. */
  ghost predicate InGroup(statements: seq<Statement>, i: nat)
    requires i <= |statements|
  {
    exists k :: GroupOpenFrom(statements, k, i)
  }

  /** In a UI. */
  ghost predicate InUI(statements: seq<Statement>, i: nat)
    requires i <= |statements|
  {
    exists k :: UIOpenFrom(statements, k, i)
  }

  lemma InGroupMeans(statements: seq<Statement>, i: nat)
    requires i <= |statements|
    ensures InsideInstallable(statements[..i]) <==> InGroup(statements, i)
    ensures InsideOpenUI(statements[..i]) <==> InUI(statements, i)
  {
    hide InsideInstallable, InsideOpenUI;
    if InsideInstallable(statements[..i]) { var k := InsideIsOpen(statements, i); }
    if k :| GroupOpenFrom(statements, k, i) { OpenIsInside(statements, k, i); }
    if InsideOpenUI(statements[..i]) { var k := InsideUIIsOpen(statements, i); }
    if k :| UIOpenFrom(statements, k, i) { OpenIsInsideUI(statements, k, i); }
  }

  /** In an InstallableOptions group, before any UI was opened in such a group. */
  ghost predicate LostInside(statements: seq<Statement>, i: nat)
    requires i <= |statements|
  {
    && InGroup(statements, i)
    && forall m :: 0 <= m < i && IsHeaderKeyword(statements[m].mainKeyword) ==> !InGroup(statements, m)
  }

  /**
   * After the end of an InstallableOptions group, with a UI of that group still open, and before any UI was opened
   * outside such groups.
   */
  ghost predicate LostOutside(statements: seq<Statement>, i: nat)
    requires i <= |statements|
  {
    && (exists k, j :: k < j && UIOpenFrom(statements, k, i) && GroupClosedFrom(statements, j, i))
    && forall m :: 0 <= m < i && IsHeaderKeyword(statements[m].mainKeyword) ==> InGroup(statements, m)
  }

  /** A UI was opened before i, inside (or else outside) an InstallableOptions group. */
  ghost predicate HeaderBefore(statements: seq<Statement>, i: nat, inside: bool)
    requires i <= |statements|
  {
    exists m :: 0 <= m < i && IsHeaderKeyword(statements[m].mainKeyword) && InGroup(statements, m) == inside
  }

  lemma HeadersAt(statements: seq<Statement>, i: nat, inside: bool)
    requires i <= |statements|
    ensures HasHeader(statements[..i], inside) <==> HeaderBefore(statements, i, inside)
  {
    hide InsideInstallable, InsideOpenUI, IsOpenUI, InGroup, InUI, IsHeaderKeyword, OpensInstallable, ClosesInstallable, IsCloseUI,
      IsFooterKeyword;
    var p := statements[..i];
    forall m | 0 <= m < i
      ensures IsOpenUI(p[m]) && InsideInstallable(p[..m]) == inside
              <==> IsHeaderKeyword(statements[m].mainKeyword) && InGroup(statements, m) == inside
    {
      assert p[..m] == statements[..m] && p[m] == statements[m];
      InGroupMeans(statements, m);
      GroupOpens(statements[m]);
    }
    if HasHeader(p, inside) {
      var m :| 0 <= m < |p| && IsOpenUI(p[m]) && InsideInstallable(p[..m]) == inside;
      assert IsHeaderKeyword(statements[m].mainKeyword) && InGroup(statements, m) == inside;
    }
    if HeaderBefore(statements, i, inside) {
      var m :| 0 <= m < i && IsHeaderKeyword(statements[m].mainKeyword) && InGroup(statements, m) == inside;
      assert IsOpenUI(p[m]) && InsideInstallable(p[..m]) == inside;
    }
  }

  lemma OutsideLoss(statements: seq<Statement>, i: nat)
    requires i <= |statements|
    ensures !InGroup(statements, i) && InUI(statements, i) && !HeaderBefore(statements, i, false) <==> LostOutside(statements, i)
  {
    hide InsideInstallable, InsideOpenUI, IsHeaderKeyword, UIOpenFrom, GroupClosedFrom, GroupOpenFrom, OpensInstallable,
      ClosesInstallable, IsOpenUI;
    InGroupMeans(statements, i);
    if !InGroup(statements, i) && InUI(statements, i) && !HeaderBefore(statements, i, false) {
      hide InGroup;
      var k :| UIOpenFrom(statements, k, i);
      UIOpens(statements, k, i);
      GroupOpens(statements[k]);
      InGroupMeans(statements, k);
      var j := ClosedBetween(statements, k, i);
      GroupCloses(statements, j, i);
      assert k < j;
    }
    if LostOutside(statements, i) {
      var k, j :| k < j && UIOpenFrom(statements, k, i) && GroupClosedFrom(statements, j, i);
      GroupCloses(statements, j, i);
      ClosedIsOutside(statements, j, i);
    }
  }

  lemma UIOpens(statements: seq<Statement>, k: int, i: nat)
    requires i <= |statements| && UIOpenFrom(statements, k, i)
    ensures 0 <= k < i && IsOpenUI(statements[k]) && !ClosesInstallable(statements[k])
  {
    OpenFromMeans(statements, k, i);
    ClosesIsNotOpens(statements[k]);
    hide IsOpenUI, ClosesInstallable, UIOpenFrom, GroupOpenFrom, GroupClosedFrom;
  }

  lemma GroupCloses(statements: seq<Statement>, j: int, i: nat)
    requires i <= |statements| && GroupClosedFrom(statements, j, i)
    ensures 0 <= j < i && ClosesInstallable(statements[j])
  {
    OpenFromMeans(statements, j, i);
    hide ClosesInstallable, UIOpenFrom, GroupOpenFrom, GroupClosedFrom;
  }

  /** Neither a bracket nor a header nor a constraint. */
  predicate IsPlain(s: Statement) {
    && !IsHeaderKeyword(s.mainKeyword) && !IsFooterKeyword(s.mainKeyword) && !IsGroupKeyword(s.mainKeyword)
    && s.mainKeyword != "UIConstraints"
  }

  /**
   * A statement is lost exactly when it is neither a bracket nor a header nor a constraint, and comes either in
   * an InstallableOptions group before the first UI of such groups, or after such a group that was closed with a
   * UI still open, before the first UI outside. The second does not happen in well-bracketed files.
   */
  lemma WhatIsLost(statements: seq<Statement>, i: nat)
    requires i < |statements|
    ensures Lost(statements, i) <==> IsPlain(statements[i]) && (LostInside(statements, i) || LostOutside(statements, i))
    ensures WellBracketed(statements) ==> !LostOutside(statements, i)
  {
    LostByGuards(statements, i);
    KeywordsMean(statements[i].mainKeyword);
    HeadersAt(statements, i, true);
    HeadersAt(statements, i, false);
    InGroupMeans(statements, i);
    OutsideLoss(statements, i);
    hide KeywordOf, InsideInstallable, InsideOpenUI, HasHeader, LostOutside, Lost, InGroup, InUI, IsHeaderKeyword, IsFooterKeyword,
      IsGroupKeyword;
    if WellBracketed(statements) && LostOutside(statements, i) { OpenUIHasHeader(statements, i); }
  }

  lemma LossShape(statements: seq<Statement>)
    requires |statements| == 4 && OpensInstallable(statements[0]) && IsOpenUI(statements[1])
    requires ClosesInstallable(statements[2]) && KeywordOf(statements[3].mainKeyword) == Other
    ensures Lost(statements, 3) && LostOutside(statements, 3)
  {
    var p0: seq<Statement> := statements[..0];
    assert !HasHeader(p0, false);
    hide InsideInstallable, InsideOpenUI, HasHeader, KeywordOf, HasPrefix;
    InsideStep(statements, 0);
    InsideStep(statements, 1);
    InsideStep(statements, 2);
    LostByGuards(statements, 3);
    InGroupMeans(statements, 3);
    HeadersAt(statements, 3, false);
    OutsideLoss(statements, 3);
    hide InGroup, InUI, HeaderBefore, LostOutside;
  }

  /** A file in which a statement outside every InstallableOptions group is lost. */
  lemma LossOutsideInstallable() returns (statements: seq<Statement>)
    ensures |statements| == 4 && Lost(statements, 3) && LostOutside(statements, 3)
  {
    var open := Statement("OpenGroup", "", "", INSTALLABLE_OPTIONS);
    var ui := Statement("OpenUI", "*Duplexer", "", "Boolean");
    var close := Statement("CloseGroup", "", "", INSTALLABLE_OPTIONS);
    var lost := Statement("Manufacturer", "", "", "Acme");
    statements := [open, ui, close, lost];
    assert KeywordOf(ui.mainKeyword) == OpenUI && KeywordOf(lost.mainKeyword) == Other;
    assert OpensInstallable(open) && ClosesInstallable(close);
    hide KeywordOf, OpensInstallable, ClosesInstallable, Lost, InsideInstallable;
    LossShape(statements);
  }

  // ---- Where everything goes, by keywords and positions ----

  /** Statement i belongs to a sink. */
  ghost predicate Belongs(statements: seq<Statement>, i: nat, sink: Sink)
    requires i < |statements|
  {
    var s := statements[i];
    match sink
    case Constraints => s.mainKeyword == "UIConstraints"
    case StandAlones => IsPlain(s) && !InGroup(statements, i) && !InUI(statements, i)
    case OpenUIs =>
      && !InGroup(statements, i)
      && (IsHeaderKeyword(s.mainKeyword) || (IsPlain(s) && InUI(statements, i) && HeaderBefore(statements, i, false)))
    case Installables =>
      && InGroup(statements, i)
      && (IsHeaderKeyword(s.mainKeyword) || (IsPlain(s) && HeaderBefore(statements, i, true)))
    case Nowhere =>
      || IsFooterKeyword(s.mainKeyword) || IsGroupKeyword(s.mainKeyword)
      || (IsPlain(s) && (LostInside(statements, i) || LostOutside(statements, i)))
  }

  lemma HeaderIsNotPlain(k: string)
    ensures IsHeaderKeyword(k) ==> !IsFooterKeyword(k) && !IsGroupKeyword(k) && k != "UIConstraints"
    ensures IsFooterKeyword(k) ==> !IsGroupKeyword(k) && k != "UIConstraints"
    ensures IsGroupKeyword(k) ==> k != "UIConstraints"
  {
    KeywordsMean(k);
    assert |"OpenSubGroup"| == 12 && |"CloseSubGroup"| == 13 && "CloseSubGroup"[0] == 'C' && "UIConstraints"[0] == 'U';
    assert |"OpenGroup"| == 9 && |"CloseGroup"| == 10;
  }

  /** The sinks are these. */
  lemma SinkBelongs(statements: seq<Statement>, i: nat, sink: Sink)
    requires i < |statements|
    ensures SinkOf(statements[..i], statements[i]) == sink <==> Belongs(statements, i, sink)
  {
    var k := statements[i].mainKeyword;
    KeywordsMean(k);
    HeaderIsNotPlain(k);
    HeadersAt(statements, i, true);
    HeadersAt(statements, i, false);
    InGroupMeans(statements, i);
    WhatIsLost(statements, i);
    hide KeywordOf, InsideInstallable, InsideOpenUI, HasHeader, LostOutside, LostInside, InGroup, InUI, IsHeaderKeyword,
      IsFooterKeyword, IsGroupKeyword, HeaderBefore, WellBracketed;
  }

  /** The first n statements that belong to a sink, in order. */
  ghost function Those(statements: seq<Statement>, sink: Sink, n: nat): seq<Statement>
    requires n <= |statements|
  {
    if n == 0 then []
    else Those(statements, sink, n - 1) + if Belongs(statements, n - 1, sink) then [statements[n - 1]] else []
  }

  lemma SelectedStep(statements: seq<Statement>, i: nat, sink: Sink)
    requires i < |statements|
    ensures Selected(statements[..i + 1], sink)
            == Selected(statements[..i], sink) + if SinkOf(statements[..i], statements[i]) == sink then [statements[i]] else []
  {
    hide SinkOf;
    assert statements[..i + 1][..i] == statements[..i];
  }

  lemma {:induction false} SelectedAreThose(statements: seq<Statement>, sink: Sink, n: nat)
    requires n <= |statements|
    ensures Selected(statements[..n], sink) == Those(statements, sink, n)
  {
    if n == 0 {
      assert statements[..n] == [];
    } else {
      hide *;
      SelectedAreThose(statements, sink, n - 1);
      SinkBelongs(statements, n - 1, sink);
      SelectedStep(statements, n - 1, sink);
      ThoseNext(statements, sink, n - 1);
    }
    hide SinkOf, Belongs;
  }

  lemma ThoseNext(statements: seq<Statement>, sink: Sink, n: nat)
    requires n < |statements|
    ensures Those(statements, sink, n + 1)
            == Those(statements, sink, n) + if Belongs(statements, n, sink) then [statements[n]] else []
  {
    hide Belongs;
  }

  function HasMainKeyword(k: string): Statement -> bool { (s: Statement) => s.mainKeyword == k }

  /** The constraints are simply the statements with that keyword, wherever they stand. */
  lemma {:induction false} ConstraintsAre(statements: seq<Statement>, n: nat)
    requires n <= |statements|
    ensures Those(statements, Constraints, n) == Filter(HasMainKeyword("UIConstraints"), statements[..n])
  {
    if n == 0 {
      assert statements[..n] == [];
    } else {
      ConstraintsAre(statements, n - 1);
      FilterStep(HasMainKeyword("UIConstraints"), statements, n - 1);
      hide Filter;
    }
  }

  method GroupStatements(statements: seq<Statement>)
    returns (openUIs: seq<seq<Statement>>, installables: seq<seq<Statement>>,
             uiConstraints: seq<Statement>, standAlones: seq<Statement>)
    ensures Groups(openUIs) && Flatten(openUIs) == Selected(statements, OpenUIs)
    ensures Groups(installables) && Flatten(installables) == Selected(statements, Installables)
    ensures uiConstraints == Selected(statements, Constraints)
    ensures standAlones == Selected(statements, StandAlones)
    ensures Flatten(openUIs) == Those(statements, OpenUIs, |statements|)
    ensures Flatten(installables) == Those(statements, Installables, |statements|)
    ensures uiConstraints == Filter(HasMainKeyword("UIConstraints"), statements)
    ensures standAlones == Those(statements, StandAlones, |statements|)
  {
    var g := Grouping([], [], [], [], false, false);
    for i := 0 to |statements|
      invariant IsGrouping(g, statements[..i])
    {
      hide IsGrouping;
      g := GroupOne(g, statements[i], statements, i);
    }
    assert statements[..|statements|] == statements;
    hide Grouped, Selected, Those, Belongs, Filter, InsideInstallable, InsideOpenUI;
    SelectedAreThose(statements, OpenUIs, |statements|);
    SelectedAreThose(statements, Installables, |statements|);
    SelectedAreThose(statements, Constraints, |statements|);
    SelectedAreThose(statements, StandAlones, |statements|);
    ConstraintsAre(statements, |statements|);
    assert Grouped(g.openUIs, statements, OpenUIs) && Grouped(g.installables, statements, Installables);
    GroupedMeans(g.openUIs, statements, OpenUIs);
    GroupedMeans(g.installables, statements, Installables);
    return g.openUIs, g.installables, g.uiConstraints, g.standAlones;
  }

  lemma GroupedMeans(gs: seq<seq<Statement>>, p: seq<Statement>, sink: Sink)
    requires Grouped(gs, p, sink)
    ensures Groups(gs) && Flatten(gs) == Selected(p, sink)
  {
    hide Selected, Flatten, Groups;
  }
}
