/** The outline adapter: turns the flat symbol information a plugin provides
    into a tree of protocol document symbols, sorted by position and nested
    by range containment.

    The source builds the tree in place: each new symbol object is pushed
    onto a parent's `children` array and onto a stack of open parents. Here
    the symbol objects are numbered by their place in the sorted list; the
    `children` arrays become an array of index lists and the stack a list of
    indices, so the loop performs the same pushes and pops. The returned tree
    is read out of those lists at the end. */
module Outline {
  import opened Wrappers
  import opened Sequences
  import opened TypeConverters

  /** Symbol information of the plugin API. */
  datatype SymbolInformation = SymbolInformation(
    name: string, kind: int, containerName: Option<string>, location: Location)

  // ---------------------------------------------------------------------------
  // Ordering

  /** `Position.compareTo`: lines first, then characters. */
  function ComparePositions(a: Position, b: Position): (r: int)
    ensures r == 0 <==> a == b
    ensures r < 0 <==> a.line < b.line || (a.line == b.line && a.character < b.character)
    ensures -1 <= r <= 1
  {
    if a.line < b.line then -1
    else if a.line > b.line then 1
    else if a.character < b.character then -1
    else if a.character > b.character then 1
    else 0
  }

  /** The sort comparator: by start ascending, then by end descending, so that
      of two symbols starting together the enclosing one comes first. */
  function CompareSymbols(a: SymbolInformation, b: SymbolInformation): int {
    var r := ComparePositions(a.location.range.start, b.location.range.start);
    if r == 0 then ComparePositions(b.location.range.end, a.location.range.end) else r
  }

  predicate SymbolLe(a: SymbolInformation, b: SymbolInformation) {
    CompareSymbols(a, b) <= 0
  }

  /** The comparator is a total preorder, so sorting with it is meaningful. */
  lemma SymbolOrderIsTotalPreorder()
    ensures TotalPreorder(SymbolLe)
  {
  }

  /** The sorted copy is an ordered permutation of the caller's symbols; the
      caller's list itself is a value and stays as it was. */
  lemma {:induction false} SortedSymbols(info: seq<SymbolInformation>)
    ensures Sorted(SortBy(info, SymbolLe), SymbolLe)
    ensures multiset(SortBy(info, SymbolLe)) == multiset(info)
  {
    SymbolOrderIsTotalPreorder();
    SortBySorted(info, SymbolLe);
  }

  // ---------------------------------------------------------------------------
  // Range containment

  /** `a` is at or before `b`. */
  predicate AtOrBefore(a: LspPosition, b: LspPosition) {
    a.line < b.line || (a.line == b.line && a.character <= b.character)
  }

  /** A range whose start is at or before its end, as every range of the
      plugin API is. */
  predicate ValidRange(r: LspRange) {
    AtOrBefore(r.start, r.end)
  }

  /** `otherRange` lies in `range`; equal ranges count as contained. Both
      ends of `otherRange` must lie on the lines of `range`, and on a shared
      boundary line within the boundary column. For a valid `otherRange` this
      is containment of position intervals. */
  function ContainsRange(range: LspRange, otherRange: LspRange): (b: bool)
    ensures b ==> range.start.line <= otherRange.start.line <= range.end.line
    ensures b ==> range.start.line <= otherRange.end.line <= range.end.line
    ensures ValidRange(otherRange) ==>
      (b <==> AtOrBefore(range.start, otherRange.start) && AtOrBefore(otherRange.end, range.end))
  {
    if otherRange.start.line < range.start.line || otherRange.end.line < range.start.line then false
    else if otherRange.start.line > range.end.line || otherRange.end.line > range.end.line then false
    else if otherRange.start.line == range.start.line && otherRange.start.character < range.start.character then false
    else if otherRange.end.line == range.end.line && otherRange.end.character > range.end.character then false
    else true
  }

  /** All four coordinates agree. */
  function EqualsRange(a: LspRange, b: LspRange): (r: bool)
    ensures r <==> a == b
  {
    a.start.line == b.start.line && a.start.character == b.start.character &&
    a.end.line == b.end.line && a.end.character == b.end.character
  }

  /** Equality of ranges is reflexive and symmetric, and a range whose start
      line is not after its end line contains itself. */
  lemma RangeRelationsBasics(a: LspRange, b: LspRange)
    ensures EqualsRange(a, a)
    ensures EqualsRange(a, b) == EqualsRange(b, a)
    ensures a.start.line <= a.end.line ==> ContainsRange(a, a)
  {
  }

  /** The relation that makes a symbol a child: contained, but not equal. */
  predicate StrictlyContains(parent: LspRange, child: LspRange) {
    ContainsRange(parent, child) && !EqualsRange(parent, child)
  }

  /** On valid ranges strict containment is transitive. */
  lemma StrictlyContainsTransitive(a: LspRange, b: LspRange, c: LspRange)
    requires ValidRange(a) && ValidRange(b) && ValidRange(c)
    requires StrictlyContains(a, b) && StrictlyContains(b, c)
    ensures StrictlyContains(a, c)
  {
  }

  // ---------------------------------------------------------------------------
  // Specification of the tree: a parent table

  /** Entry `j` is the index of `j`'s parent, or -1 for a root; a parent always
      comes earlier. */
  ghost predicate IsParentTable(parents: seq<int>) {
    forall j :: 0 <= j < |parents| ==> -1 <= parents[j] < j
  }

  /** The chain of ancestors of `j`, outermost first, ending with `j` itself;
      empty for -1. An entry that does not name an earlier symbol ends the
      chain; in a parent table there is none. */
  ghost function Path(parents: seq<int>, j: int): (path: seq<nat>)
    requires -1 <= j < |parents|
    ensures |path| > 0 <==> j >= 0
    ensures j >= 0 ==> path[|path| - 1] == j
    decreases j + 1
  {
    if j < 0 then []
    else if -1 <= parents[j] < j then Path(parents, parents[j]) + [j]
    else [j]
  }

  /** An ancestor chain holds only `j` and earlier symbols. */
  lemma {:induction false} PathBounds(parents: seq<int>, j: int)
    requires -1 <= j < |parents|
    ensures forall m :: 0 <= m < |Path(parents, j)| ==> Path(parents, j)[m] <= j
    decreases j + 1
  {
    if j >= 0 && -1 <= parents[j] < j {
      PathBounds(parents, parents[j]);
    }
  }

  /** The deepest symbol on an ancestor chain whose range strictly contains
      `r`, or -1 when none does. */
  ghost function ChooseParent(ranges: seq<LspRange>, path: seq<nat>, r: LspRange): (p: int)
    ensures -1 <= p
    ensures p >= 0 ==> p < |ranges| && StrictlyContains(ranges[p], r)
  {
    if path == [] then -1
    else if path[|path| - 1] < |ranges| && StrictlyContains(ranges[path[|path| - 1]], r) then path[|path| - 1]
    else ChooseParent(ranges, path[..|path| - 1], r)
  }

  /** The chosen parent is on the chain. */
  lemma {:induction false} ChooseParentOnPath(ranges: seq<LspRange>, path: seq<nat>, r: LspRange)
    ensures ChooseParent(ranges, path, r) == -1 || ChooseParent(ranges, path, r) in path
  {
    if path != [] {
      var init := path[..|path| - 1];
      ChooseParentOnPath(ranges, init, r);
      assert forall x :: x in init ==> x in path;
    }
  }

  /** No symbol of `path` strictly contains `r`. */
  ghost predicate NoneContains(ranges: seq<LspRange>, path: seq<nat>, r: LspRange) {
    forall m :: 0 <= m < |path| && path[m] < |ranges| ==> !StrictlyContains(ranges[path[m]], r)
  }

  /** `p` is on `path`, and no symbol after it there strictly contains `r`. */
  ghost predicate DeepestOn(ranges: seq<LspRange>, path: seq<nat>, r: LspRange, p: int) {
    exists m :: 0 <= m < |path| && path[m] == p && NoneContains(ranges, path[m + 1..], r)
  }

  /** No parent is chosen exactly when no symbol on the chain strictly
      contains `r`. */
  lemma {:induction false} ChooseParentNone(ranges: seq<LspRange>, path: seq<nat>, r: LspRange)
    ensures ChooseParent(ranges, path, r) == -1 <==> NoneContains(ranges, path, r)
  {
    if path != [] {
      var init := path[..|path| - 1];
      ChooseParentNone(ranges, init, r);
      assert forall m :: 0 <= m < |init| ==> path[m] == init[m];
    }
  }

  /** The chosen parent is the deepest symbol on the chain that strictly
      contains `r`: none further down the chain does. */
  lemma {:induction false} ChooseParentIsDeepest(ranges: seq<LspRange>, path: seq<nat>, r: LspRange)
    ensures ChooseParent(ranges, path, r) >= 0 ==> DeepestOn(ranges, path, r, ChooseParent(ranges, path, r))
  {
    var p := ChooseParent(ranges, path, r);
    if path != [] && p >= 0 {
      var last := |path| - 1;
      if path[last] < |ranges| && StrictlyContains(ranges[path[last]], r) {
        assert path[last + 1..] == [];
        assert path[last] == p && NoneContains(ranges, path[last + 1..], r);
      } else {
        var init := path[..last];
        ChooseParentIsDeepest(ranges, init, r);
        var m :| 0 <= m < |init| && init[m] == p && NoneContains(ranges, init[m + 1..], r);
        NoneContainsAppend(ranges, init[m + 1..], path[last], r);
        assert path[m + 1..] == init[m + 1..] + [path[last]];
        assert path[m] == p;
      }
    }
  }

  lemma NoneContainsAppend(ranges: seq<LspRange>, path: seq<nat>, x: nat, r: LspRange)
    requires NoneContains(ranges, path, r)
    requires x < |ranges| ==> !StrictlyContains(ranges[x], r)
    ensures NoneContains(ranges, path + [x], r)
  {
    assert forall m :: 0 <= m < |path| ==> (path + [x])[m] == path[m];
  }

  /** The parents of the first `i` symbols: each symbol's parent is chosen on
      the ancestor chain of the symbol before it. */
  ghost function ParentsUpTo(ranges: seq<LspRange>, i: nat): (parents: seq<int>)
    requires i <= |ranges|
    ensures |parents| == i
  {
    if i == 0 then []
    else
      var prev := ParentsUpTo(ranges, i - 1);
      prev + [ChooseParent(ranges, Path(prev, i - 2), ranges[i - 1])]
  }

  /** Every chosen parent comes before its child. */
  lemma {:induction false} ParentsUpToIsTable(ranges: seq<LspRange>, i: nat)
    requires i <= |ranges|
    ensures IsParentTable(ParentsUpTo(ranges, i))
  {
    if i > 0 {
      var prev := ParentsUpTo(ranges, i - 1);
      ParentsUpToIsTable(ranges, i - 1);
      var path := Path(prev, i - 2);
      PathBounds(prev, i - 2);
      ChooseParentOnPath(ranges, path, ranges[i - 1]);
      assert ParentsUpTo(ranges, i) == prev + [ChooseParent(ranges, path, ranges[i - 1])];
    }
  }

  /** The indices whose parent is `p` (the roots for -1), in increasing order. */
  function KidsOf(parents: seq<int>, p: int): (kids: seq<nat>)
    ensures forall m :: 0 <= m < |kids| ==> kids[m] < |parents|
  {
    if parents == [] then []
    else KidsOf(parents[..|parents| - 1], p) + (if parents[|parents| - 1] == p then [|parents| - 1] else [])
  }

  /** The kids of `p` are exactly the symbols whose table entry is `p`. */
  lemma {:induction false} KidsOfMembers(parents: seq<int>, p: int)
    ensures forall k :: k in KidsOf(parents, p) <==> 0 <= k < |parents| && parents[k] == p
  {
    if parents != [] {
      var init := parents[..|parents| - 1];
      KidsOfMembers(init, p);
      assert forall k :: 0 <= k < |init| ==> parents[k] == init[k];
    }
  }

  /** The kids of a symbol are listed in the order the symbols were placed,
      each once. */
  lemma {:induction false} KidsOfIncreasing(parents: seq<int>, p: int)
    ensures forall a, b :: 0 <= a < b < |KidsOf(parents, p)| ==> KidsOf(parents, p)[a] < KidsOf(parents, p)[b]
  {
    if parents != [] {
      var init := parents[..|parents| - 1];
      KidsOfIncreasing(init, p);
      var before := KidsOf(init, p);
      assert forall m :: 0 <= m < |before| ==> before[m] < |parents| - 1;
    }
  }

  /** Extending the table by one entry extends exactly one list of kids. */
  lemma KidsOfExtend(parents: seq<int>, x: int, p: int)
    ensures KidsOf(parents + [x], p) == KidsOf(parents, p) + (if x == p then [|parents|] else [])
  {
    assert (parents + [x])[..|parents|] == parents;
  }

  /** An ancestor chain does not change when the table is extended. */
  lemma {:induction false} PathPrefix(parents: seq<int>, longer: seq<int>, j: int)
    requires |parents| <= |longer| && longer[..|parents|] == parents
    requires -1 <= j < |parents|
    ensures Path(longer, j) == Path(parents, j)
    decreases j + 1
  {
    if j >= 0 {
      assert longer[j] == parents[j];
      if -1 <= parents[j] < j {
        PathPrefix(parents, longer, parents[j]);
      }
    }
  }

  /** Earlier entries of the table do not depend on later symbols. */
  lemma {:induction false} ParentsPrefix(ranges: seq<LspRange>, k: nat, i: nat)
    requires k <= i <= |ranges|
    ensures ParentsUpTo(ranges, i)[..k] == ParentsUpTo(ranges, k)
    decreases i - k
  {
    var whole := ParentsUpTo(ranges, i);
    if k == i {
      assert whole[..k] == whole;
    } else {
      ParentsPrefix(ranges, k, i - 1);
      ParentsStep(ranges, i);
      var mid := ParentsUpTo(ranges, i - 1);
      assert whole[..k] == mid[..k];
    }
  }

  lemma ParentsStep(ranges: seq<LspRange>, i: nat)
    requires 0 < i <= |ranges|
    ensures ParentsUpTo(ranges, i)[..i - 1] == ParentsUpTo(ranges, i - 1)
  {
    var prev := ParentsUpTo(ranges, i - 1);
    assert ParentsUpTo(ranges, i) == prev + [ChooseParent(ranges, Path(prev, i - 2), ranges[i - 1])];
  }

  /** The parent of symbol `j` in the whole table. */
  lemma {:induction false} ParentAt(ranges: seq<LspRange>, parents: seq<int>, j: nat)
    requires parents == ParentsUpTo(ranges, |ranges|) && j < |ranges|
    ensures parents[j] == ChooseParent(ranges, Path(parents, j - 1), ranges[j])
  {
    var prev := ParentsUpTo(ranges, j);
    ParentsPrefix(ranges, j + 1, |ranges|);
    ParentsPrefix(ranges, j, |ranges|);
    assert parents[j] == ParentsUpTo(ranges, j + 1)[j];
    PathPrefix(prev, parents, j - 1);
  }

  /** Placing symbol `i` under its chosen parent extends the table by one
      entry. */
  lemma NextTable(ranges: seq<LspRange>, i: nat)
    requires i < |ranges|
    ensures var parents := ParentsUpTo(ranges, i);
      parents + [ChooseParent(ranges, Path(parents, i - 1), ranges[i])] == ParentsUpTo(ranges, i + 1)
  {
    var parents := ParentsUpTo(ranges, i);
    assert ParentsUpTo(ranges, i + 1) == parents + [ChooseParent(ranges, Path(parents, i - 1), ranges[i])];
  }

  /** The ancestor chain of a newly placed symbol is its parent's chain and
      itself. */
  lemma PathNext(parents: seq<int>, chosen: int)
    requires IsParentTable(parents) && -1 <= chosen < |parents|
    ensures IsParentTable(parents + [chosen])
    ensures chosen >= 0 ==> Path(parents + [chosen], |parents|) == Path(parents, chosen) + [|parents|]
    ensures chosen < 0 ==> Path(parents + [chosen], |parents|) == [|parents|]
  {
    var next := parents + [chosen];
    assert next[..|parents|] == parents;
    if chosen >= 0 {
      PathPrefix(parents, next, chosen);
    }
  }

  /** Extending the table by one entry extends the children list of that
      entry's parent, and no other. */
  lemma ChildListsExtend(parents: seq<int>, chosen: int, i: nat, n: nat)
    requires |parents| == i < n && -1 <= chosen < i
    ensures chosen >= 0 ==> ChildLists(parents + [chosen], n) == ChildLists(parents, n)[chosen := KidsOf(parents, chosen) + [i]]
    ensures chosen < 0 ==> ChildLists(parents + [chosen], n) == ChildLists(parents, n)
  {
    var a := ChildLists(parents + [chosen], n);
    var b := ChildLists(parents, n);
    var c := if chosen >= 0 then b[chosen := KidsOf(parents, chosen) + [i]] else b;
    forall p | 0 <= p < n ensures a[p] == c[p] {
      KidsOfExtend(parents, chosen, p);
    }
    assert a == c;
  }

  // ---------------------------------------------------------------------------
  // Reading the tree out of the index lists

  function ElementOf(info: SymbolInformation): (e: LspDocumentSymbol)
    ensures e.name == info.name && e.detail == "" && e.children == []
    ensures e.kind == FromSymbolKind(info.kind) && e.containerName == info.containerName
    ensures ToRange(e.range) == info.location.range && e.selectionRange == e.range
  {
    var range := FromRange(Some(info.location.range)).value;
    LspDocumentSymbol(info.name, "", FromSymbolKind(info.kind), info.containerName, range, range, [])
  }

  /** Every listed child comes after its parent and is a symbol. */
  ghost predicate Arena(nodes: seq<LspDocumentSymbol>, kids: seq<seq<nat>>) {
    |kids| == |nodes| &&
    forall j, m :: 0 <= j < |kids| && 0 <= m < |kids[j]| ==> j < kids[j][m] < |nodes|
  }

  /** Symbol `j` with its children attached, recursively. */
  function Tree(nodes: seq<LspDocumentSymbol>, kids: seq<seq<nat>>, j: nat): LspDocumentSymbol
    requires Arena(nodes, kids) && j < |nodes|
    decreases |nodes| - j, 1, 0
  {
    nodes[j].(children := Forest(nodes, kids, kids[j], j))
  }

  /** The trees of the symbols `cs`, which all come after `bound`. */
  function Forest(nodes: seq<LspDocumentSymbol>, kids: seq<seq<nat>>, cs: seq<nat>, bound: int): (r: seq<LspDocumentSymbol>)
    requires Arena(nodes, kids)
    requires forall m :: 0 <= m < |cs| ==> bound < cs[m] < |nodes|
    ensures |r| == |cs|
    decreases |nodes| - bound, 0, |cs|
  {
    if cs == [] then [] else [Tree(nodes, kids, cs[0])] + Forest(nodes, kids, cs[1..], bound)
  }

  function RangesOf(nodes: seq<LspDocumentSymbol>): (ranges: seq<LspRange>)
    ensures |ranges| == |nodes| && forall i :: 0 <= i < |nodes| ==> ranges[i] == nodes[i].range
  {
    seq(|nodes|, i requires 0 <= i < |nodes| => nodes[i].range)
  }

  function ElementsOf(sorted: seq<SymbolInformation>): (nodes: seq<LspDocumentSymbol>)
    ensures |nodes| == |sorted| && forall i :: 0 <= i < |sorted| ==> nodes[i] == ElementOf(sorted[i])
  {
    seq(|sorted|, i requires 0 <= i < |sorted| => ElementOf(sorted[i]))
  }

  /** The children lists of the first `n` symbols. */
  function ChildLists(parents: seq<int>, n: nat): (kids: seq<seq<nat>>)
    ensures |kids| == n && forall p :: 0 <= p < n ==> kids[p] == KidsOf(parents, p)
  {
    seq(n, p requires 0 <= p < n => KidsOf(parents, p))
  }

  /** The kids lists of a parent table form an arena over its symbols, and
      the roots are symbols. */
  lemma ChildListsArena(nodes: seq<LspDocumentSymbol>, parents: seq<int>)
    requires IsParentTable(parents) && |parents| == |nodes|
    ensures Arena(nodes, ChildLists(parents, |nodes|))
    ensures forall m :: 0 <= m < |KidsOf(parents, -1)| ==> -1 < KidsOf(parents, -1)[m] < |nodes|
  {
    var kids := ChildLists(parents, |nodes|);
    forall j, m | 0 <= j < |kids| && 0 <= m < |kids[j]| ensures j < kids[j][m] < |nodes| {
      KidsOfMembers(parents, j);
      assert kids[j][m] in KidsOf(parents, j);
    }
  }

  /** The outline of a list of symbols: the symbols sorted, each one attached
      under the deepest symbol of the previous one's ancestor chain that
      strictly contains it, or made a root. */
  ghost function OutlineOf(info: seq<SymbolInformation>): seq<LspDocumentSymbol> {
    NestingOf(ElementsOf(SortBy(info, SymbolLe)))
  }

  /** The forest of already sorted symbols, nested by the parent table. */
  ghost function NestingOf(nodes: seq<LspDocumentSymbol>): seq<LspDocumentSymbol> {
    var parents := ParentsUpTo(RangesOf(nodes), |nodes|);
    ParentsUpToIsTable(RangesOf(nodes), |nodes|);
    ChildListsArena(nodes, parents);
    Forest(nodes, ChildLists(parents, |nodes|), KidsOf(parents, -1), -1)
  }

  /** Places symbol `i` in the tree: pops the stack of open parents until its
      top strictly contains the symbol and pushes the symbol under that top,
      or, once the stack is empty, pushes it as a new root. */
  method PlaceElement(nodes: seq<LspDocumentSymbol>, children: array<seq<nat>>, roots: seq<nat>,
                      parentStack: seq<nat>, i: nat, ghost parents: seq<int>)
    returns (newRoots: seq<nat>, newStack: seq<nat>, ghost chosen: int)
    requires i < |nodes| && children.Length == |nodes|
    requires |parents| == i && IsParentTable(parents)
    requires parentStack == Path(parents, i - 1)
    modifies children
    ensures -1 <= chosen < i
    ensures chosen == ChooseParent(RangesOf(nodes), parentStack, nodes[i].range)
    ensures chosen >= 0 ==>
      && newStack == Path(parents, chosen) + [i]
      && newRoots == roots
      && children[..] == old(children[..])[chosen := old(children[chosen]) + [i]]
    ensures chosen < 0 ==> newStack == [i] && newRoots == roots + [i] && children[..] == old(children[..])
  {
    ghost var ranges := RangesOf(nodes);
    var element := nodes[i];
    chosen := ChooseParent(ranges, parentStack, element.range);
    newStack := parentStack;
    newRoots := roots;
    ghost var top := i - 1;
    while true
      invariant -1 <= top < i && newStack == Path(parents, top)
      invariant ChooseParent(ranges, newStack, element.range) == chosen
      invariant newRoots == roots && children[..] == old(children[..])
      decreases top + 1
    {
      if |newStack| == 0 {
        newStack := newStack + [i];
        newRoots := newRoots + [i];
        break;
      }
      var parent := newStack[|newStack| - 1];
      if ContainsRange(nodes[parent].range, element.range) && !EqualsRange(nodes[parent].range, element.range) {
        children[parent] := children[parent] + [i];
        newStack := newStack + [i];
        break;
      }
      PopStep(ranges, parents, top, element.range);
      newStack := newStack[..|newStack| - 1];
      top := parents[top];
    }
  }

  /** Popping the top of the stack of open parents, when it does not strictly
      contain `r`, leaves the chain of the top's parent and the same choice. */
  lemma PopStep(ranges: seq<LspRange>, parents: seq<int>, top: nat, r: LspRange)
    requires IsParentTable(parents) && top < |parents| <= |ranges|
    requires !StrictlyContains(ranges[top], r)
    ensures Path(parents, top)[..|Path(parents, top)| - 1] == Path(parents, parents[top])
    ensures ChooseParent(ranges, Path(parents, parents[top]), r) == ChooseParent(ranges, Path(parents, top), r)
  {
    var up := Path(parents, parents[top]);
    assert Path(parents, top) == up + [top];
    assert (up + [top])[..|up|] == up;
  }

  /** Sorts a copy of the symbols, converts each one, nests them, and returns
      the roots with their children attached. */
  method AsDocumentSymbolTree(info: seq<SymbolInformation>) returns (res: seq<LspDocumentSymbol>)
    ensures res == OutlineOf(info)
  {
    var sorted := SortBy(info, SymbolLe);
    var nodes := ElementsOf(sorted);
    var children, roots := NestSymbols(nodes);
    NestingFromLists(nodes, ParentsUpTo(RangesOf(nodes), |nodes|), children[..], roots);
    res := Forest(nodes, children[..], roots, -1);
  }

  /** Folds sorted symbols into a containment tree with a stack of open
      parents: a symbol is pushed under the top of the stack if that strictly
      contains it, the stack is popped otherwise, and a symbol that empties
      the stack becomes a root. The children lists and the roots it ends with
      are those of the parent table. */
  method NestSymbols(nodes: seq<LspDocumentSymbol>) returns (children: array<seq<nat>>, roots: seq<nat>)
    ensures fresh(children)
    ensures children[..] == ChildLists(ParentsUpTo(RangesOf(nodes), |nodes|), |nodes|)
    ensures roots == KidsOf(ParentsUpTo(RangesOf(nodes), |nodes|), -1)
  {
    var n := |nodes|;
    ghost var ranges := RangesOf(nodes);
    children := new seq<nat>[n](_ => []);
    roots := [];
    var parentStack: seq<nat> := [];
    ghost var parents: seq<int> := [];
    for i := 0 to n
      invariant parents == ParentsUpTo(ranges, i) && IsParentTable(parents)
      invariant parentStack == Path(parents, i - 1)
      invariant roots == KidsOf(parents, -1)
      invariant children[..] == ChildLists(parents, n)
    {
      ghost var chosen, before, oldRoots := 0, children[..], roots;
      roots, parentStack, chosen := PlaceElement(nodes, children, roots, parentStack, i, parents);
      PlacementStep(ranges, parents, i, chosen, n, before, oldRoots, children[..], roots, parentStack);
      parents := parents + [chosen];
    }
  }

  /** One placement keeps the stack, the roots and the children lists in
      step with the parent table, extended by the chosen parent. */
  lemma PlacementStep(ranges: seq<LspRange>, parents: seq<int>, i: nat, chosen: int, n: nat,
                      kids: seq<seq<nat>>, roots: seq<nat>,
                      newKids: seq<seq<nat>>, newRoots: seq<nat>, newStack: seq<nat>)
    requires i < |ranges| && i < n && parents == ParentsUpTo(ranges, i) && IsParentTable(parents)
    requires chosen == ChooseParent(ranges, Path(parents, i - 1), ranges[i])
    requires roots == KidsOf(parents, -1) && kids == ChildLists(parents, n)
    requires chosen >= 0 ==>
      && chosen < i
      && newStack == Path(parents, chosen) + [i]
      && newRoots == roots
      && newKids == kids[chosen := kids[chosen] + [i]]
    requires chosen < 0 ==> newStack == [i] && newRoots == roots + [i] && newKids == kids
    ensures parents + [chosen] == ParentsUpTo(ranges, i + 1) && IsParentTable(parents + [chosen])
    ensures newStack == Path(parents + [chosen], i)
    ensures newRoots == KidsOf(parents + [chosen], -1)
    ensures newKids == ChildLists(parents + [chosen], n)
  {
    NextTable(ranges, i);
    PathNext(parents, chosen);
    ChildListsExtend(parents, chosen, i, n);
    KidsOfExtend(parents, chosen, -1);
  }

  /** The lists the loop ends with describe the nesting of the symbols. */
  lemma NestingFromLists(nodes: seq<LspDocumentSymbol>, parents: seq<int>, kids: seq<seq<nat>>, roots: seq<nat>)
    requires parents == ParentsUpTo(RangesOf(nodes), |nodes|)
    requires kids == ChildLists(parents, |nodes|) && roots == KidsOf(parents, -1)
    ensures Arena(nodes, kids) && forall m :: 0 <= m < |roots| ==> -1 < roots[m] < |nodes|
    ensures Forest(nodes, kids, roots, -1) == NestingOf(nodes)
  {
    ParentsUpToIsTable(RangesOf(nodes), |nodes|);
    ChildListsArena(nodes, parents);
  }

  // ---------------------------------------------------------------------------
  // Properties of the outline

  /** A symbol becomes a child only of a symbol whose range strictly contains
      its own; it becomes a root exactly when no symbol on the previous
      symbol's ancestor chain strictly contains it; its parent is the deepest
      such symbol. */
  lemma {:induction false} ParentChoice(ranges: seq<LspRange>, parents: seq<int>, j: nat)
    requires parents == ParentsUpTo(ranges, |ranges|) && j < |ranges|
    ensures -1 <= parents[j] < j
    ensures parents[j] >= 0 ==> StrictlyContains(ranges[parents[j]], ranges[j])
    ensures parents[j] == -1 <==> NoneContains(ranges, Path(parents, j - 1), ranges[j])
    ensures parents[j] >= 0 ==> DeepestOn(ranges, Path(parents, j - 1), ranges[j], parents[j])
  {
    ParentsUpToIsTable(ranges, |ranges|);
    ParentAt(ranges, parents, j);
    ChooseParentNone(ranges, Path(parents, j - 1), ranges[j]);
    ChooseParentIsDeepest(ranges, Path(parents, j - 1), ranges[j]);
  }

  /** Every symbol is in exactly one place: among the roots if it has no
      parent, otherwise among the children of its parent and of no other
      symbol. No list repeats a symbol. */
  lemma EachSymbolOnce(parents: seq<int>, j: nat, p: int)
    requires IsParentTable(parents) && j < |parents|
    ensures j in KidsOf(parents, parents[j])
    ensures p != parents[j] ==> j !in KidsOf(parents, p)
    ensures parents[j] == -1 <==> j in KidsOf(parents, -1)
    ensures forall a, b :: 0 <= a < b < |KidsOf(parents, p)| ==> KidsOf(parents, p)[a] != KidsOf(parents, p)[b]
  {
    KidsOfMembers(parents, parents[j]);
    KidsOfMembers(parents, p);
    KidsOfMembers(parents, -1);
    KidsOfIncreasing(parents, p);
  }

  /** Every ancestor of a symbol strictly contains it, when all ranges are
      valid: nesting in the tree is strict range nesting. */
  lemma {:induction false} AncestorsContain(ranges: seq<LspRange>, parents: seq<int>, j: nat)
    requires parents == ParentsUpTo(ranges, |ranges|) && j < |ranges|
    requires forall k :: 0 <= k < |ranges| ==> ValidRange(ranges[k])
    ensures forall m :: 0 <= m < |Path(parents, j)| ==> Path(parents, j)[m] <= j
    ensures forall m :: 0 <= m < |Path(parents, j)| - 1 ==> StrictlyContains(ranges[Path(parents, j)[m]], ranges[j])
    decreases j
  {
    ParentsUpToIsTable(ranges, |ranges|);
    PathBounds(parents, j);
    var path := Path(parents, j);
    var p := parents[j];
    if p >= 0 {
      ParentAt(ranges, parents, j);
      AncestorsContain(ranges, parents, p);
      var up := Path(parents, p);
      assert path == up + [j];
      forall m | 0 <= m < |path| - 1 ensures StrictlyContains(ranges[path[m]], ranges[j]) {
        assert path[m] == up[m];
        if m < |up| - 1 {
          assert StrictlyContains(ranges[up[m]], ranges[p]);
          StrictlyContainsTransitive(ranges[up[m]], ranges[p], ranges[j]);
        }
      }
    }
  }

  // ---------------------------------------------------------------------------
  // The adapter's entry point

  /** What a document symbol provider returns: document symbols, or flat
      symbol information. */
  datatype ProvidedSymbols =
    | DocumentSymbols(symbols: seq<DocumentSymbol>)
    | SymbolInformations(infos: seq<SymbolInformation>)

  predicate IsEmptyResult(value: ProvidedSymbols) {
    match value
    case DocumentSymbols(s) => s == []
    case SymbolInformations(s) => s == []
  }

  /** Rejects when the document is unknown; an absent or empty provider result
      gives `undefined`; document symbols are converted one by one and
      symbol information is folded into a tree. */
  method ProvideDocumentSymbols(documentKnown: bool, value: Option<ProvidedSymbols>)
    returns (r: Result<Option<seq<LspDocumentSymbol>>, string>)
    ensures !documentKnown ==> r.Err?
    ensures documentKnown && (value.None? || IsEmptyResult(value.value)) ==> r == Ok(None)
    ensures documentKnown && value.Some? && value.value.DocumentSymbols? && !IsEmptyResult(value.value) ==>
      var s := value.value.symbols;
      r == Ok(Some(seq(|s|, i requires 0 <= i < |s| => FromDocumentSymbol(s[i]))))
    ensures documentKnown && value.Some? && value.value.SymbolInformations? && !IsEmptyResult(value.value) ==>
      r == Ok(Some(OutlineOf(value.value.infos)))
  {
    if !documentKnown {
      return Err("There is no document for the resource");
    }
    if value.None? || IsEmptyResult(value.value) {
      return Ok(None);
    }
    match value.value
    case DocumentSymbols(s) =>
      return Ok(Some(seq(|s|, i requires 0 <= i < |s| => FromDocumentSymbol(s[i]))));
    case SymbolInformations(infos) =>
      var tree := AsDocumentSymbolTree(infos);
      return Ok(Some(tree));
  }
}
