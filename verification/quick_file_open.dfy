/** The quick file open service: the `path:line:column` suffix it splits off
    the typed filter, its open/toggle state, and the picks it lists. */
module QuickFileOpen {
  import opened Wrappers
  import opened Sequences

  /** An editor position: zero-based line and character. */
  datatype Position = Position(line: nat, character: nat)

  datatype Range = Range(start: Position, end: Position)

  datatype FilterAndRange = FilterAndRange(filter: string, range: Range)

  const Origin := Position(0, 0)

  /** `filterAndRangeDefault`: no filter, the top of the file. */
  const FilterAndRangeDefault := FilterAndRange("", Range(Origin, Origin))

  /** JavaScript's `\s`. */
  predicate IsSpace(c: char) {
    || c as int in {0x9, 0xA, 0xB, 0xC, 0xD, 0x20, 0xA0, 0x1680, 0x2028, 0x2029, 0x202F, 0x205F, 0x3000, 0xFEFF}
    || 0x2000 <= c as int <= 0x200A
  }

  /** JavaScript's `\d`. */
  predicate IsDigit(c: char) {
    '0' <= c <= '9'
  }

  predicate AllSpace(s: string) {
    forall k :: 0 <= k < |s| ==> IsSpace(s[k])
  }

  predicate AllDigits(s: string) {
    forall k :: 0 <= k < |s| ==> IsDigit(s[k])
  }

  /** The end of the run of digits starting at `k`. */
  function DigitsEnd(e: string, k: nat): (m: nat)
    requires k <= |e|
    ensures k <= m <= |e| && AllDigits(e[k..m]) && (m < |e| ==> !IsDigit(e[m]))
    decreases |e| - k
  {
    if k < |e| && IsDigit(e[k]) then
      var m := DigitsEnd(e, k + 1);
      assert e[k..m] == [e[k]] + e[k + 1..m];
      m
    else k
  }

  /** What the two groups of `LINE_COLON_PATTERN` capture: the line digits,
      and the column digits when the `[#:,]` part took part in the match. */
  datatype Groups = Groups(line: string, column: Option<string>)

  /** A successful match: where it starts and what it captured. */
  datatype Match = Match(index: nat, groups: Groups)

  /** `\)?\s*$` from `m`. */
  predicate RestMatches(e: string, m: nat)
    requires m <= |e|
  {
    AllSpace(e[m..]) || (m < |e| && e[m] == ')' && AllSpace(e[m + 1..]))
  }

  /** `(\d*)(?:[#:,](\d*))?\)?\s*$` from `k`. The greedy digit runs are the
      only ones that can lead to the end of the input: a shorter run leaves a
      digit where a delimiter, `)`, a space or the end must come. */
  function NumbersFrom(e: string, k: nat): (r: Option<Groups>)
    requires k <= |e|
    ensures r.Some? ==> AllDigits(r.value.line) && (r.value.column.Some? ==> AllDigits(r.value.column.value))
  {
    var m := DigitsEnd(e, k);
    if m < |e| && e[m] in {'#', ':', ','} then
      var n := DigitsEnd(e, m + 1);
      if RestMatches(e, n) then Some(Groups(e[k..m], Some(e[m + 1..n]))) else None
    else if RestMatches(e, m) then Some(Groups(e[k..m], None))
    else None
  }

  /** `LINE_COLON_PATTERN` tried at index `i`:
      `\s?[#:\(](?:line )?(\d*)(?:[#:,](\d*))?\)?\s*$`. The optional space is
      taken when there is one (the next class holds no space), and
      `line ` is tried before going without it. */
  function MatchAt(e: string, i: nat): (r: Option<Groups>)
    requires i <= |e|
    ensures r.Some? ==> AllDigits(r.value.line) && (r.value.column.Some? ==> AllDigits(r.value.column.value))
  {
    var j := if i < |e| && IsSpace(e[i]) then i + 1 else i;
    if j >= |e| || e[j] !in {'#', ':', '('} then None
    else
      var k := j + 1;
      var withLine := if k + 5 <= |e| && e[k..k + 5] == "line " then NumbersFrom(e, k + 5) else None;
      if withLine.Some? then withLine else NumbersFrom(e, k)
  }

  /** `LINE_COLON_PATTERN.exec(e)` scanning from index `i`: the leftmost
      index where the pattern matches. */
  function ExecFrom(e: string, i: nat): (r: Option<Match>)
    requires i <= |e|
    ensures r.Some? ==> i <= r.value.index <= |e| && MatchAt(e, r.value.index) == Some(r.value.groups)
    ensures r.Some? ==> forall j :: i <= j < r.value.index ==> MatchAt(e, j).None?
    ensures r.None? ==> forall j :: i <= j <= |e| ==> MatchAt(e, j).None?
    decreases |e| - i
  {
    var here := MatchAt(e, i);
    if here.Some? then Some(Match(i, here.value))
    else if i == |e| then None
    else ExecFrom(e, i + 1)
  }

  function Exec(e: string): Option<Match> {
    ExecFrom(e, 0)
  }

  /** The value of a run of decimal digits. */
  function DigitsValue(ds: string): nat
    requires AllDigits(ds)
  {
    if ds == [] then 0
    else DigitsValue(ds[..|ds| - 1]) * 10 + (ds[|ds| - 1] as int - '0' as int)
  }

  /** `parseInt(s ?? '', 10)` on a captured group, `None` for `NaN`: the
      groups hold only digits, so an empty group is the only `NaN`. */
  function ParseGroup(group: Option<string>): (r: Option<nat>)
    requires group.Some? ==> AllDigits(group.value)
    ensures r.Some? <==> group.Some? && group.value != []
  {
    if group.None? || group.value == [] then None else Some(DigitsValue(group.value))
  }

  /** A one-based number typed by the user as a zero-based one. */
  function ZeroBased(n: Option<nat>): nat {
    if n.Some? && n.value > 0 then n.value - 1 else 0
  }

  /** The position a match's groups give: nothing parsed as the line gives
      the top of the file. */
  function PositionOf(groups: Groups): Position
    requires AllDigits(groups.line)
    requires groups.column.Some? ==> AllDigits(groups.column.value)
  {
    var line := ParseGroup(Some(groups.line));
    if line.None? then Origin
    else Position(ZeroBased(line), ZeroBased(ParseGroup(groups.column)))
  }

  /** `splitFilterAndRange`: the filter is the text before the matched
      suffix (all of it without a match); the line is the one-based line of
      the suffix made zero-based, and the column likewise, read only when a
      line number parsed. */
  function SplitFilterAndRange(expression: string): (r: FilterAndRange)
    ensures r.range.start == r.range.end
    ensures Exec(expression).None? ==> r == FilterAndRange(expression, Range(Origin, Origin))
    ensures Exec(expression).Some? ==> r.filter == expression[..Exec(expression).value.index]
  {
    var patternMatch := Exec(expression);
    var position :=
      if patternMatch.None? then Origin
      else PositionOf(patternMatch.value.groups);
    var fileFilter := if patternMatch.Some? then expression[..patternMatch.value.index] else expression;
    FilterAndRange(fileFilter, Range(position, position))
  }

  /** The line and column rules: a parsed line `L` gives `L - 1` (0 for 0),
      a missing line gives the top of the file whatever the column says,
      and the column follows the line's rule. */
  lemma SplitLineAndColumn(expression: string)
    requires Exec(expression).Some?
    ensures var m := Exec(expression).value;
      var r := SplitFilterAndRange(expression);
      && (m.groups.line == [] ==> r.range.start == Origin)
      && (m.groups.line != [] ==>
            && r.range.start.line == ZeroBased(Some(DigitsValue(m.groups.line)))
            && r.range.start.character == ZeroBased(ParseGroup(m.groups.column)))
  {
  }

  /** The decimal digits of `n`. */
  function NatToDigits(n: nat): (ds: string)
    ensures ds != [] && AllDigits(ds)
    ensures DigitsValue(ds) == n
  {
    var last := ['0' + (n % 10) as char];
    if n < 10 then last
    else
      var ds := NatToDigits(n / 10) + last;
      assert ds[..|ds| - 1] == NatToDigits(n / 10);
      ds
  }

  predicate NoSuffixStart(f: string) {
    forall k :: 0 <= k < |f| ==> f[k] !in {'#', ':', '('}
  }

  /** The greedy digit run stops right after a number's digits when a
      non-digit follows. */
  lemma {:induction false} DigitsEndAfter(e: string, k: nat, n: nat)
    requires k + n <= |e| && AllDigits(e[k..k + n])
    requires k + n < |e| ==> !IsDigit(e[k + n])
    ensures DigitsEnd(e, k) == k + n
    decreases n
  {
    if n > 0 {
      assert IsDigit(e[k..k + n][0]);
      assert e[k + 1..k + n] == e[k..k + n][1..];
      DigitsEndAfter(e, k + 1, n - 1);
    }
  }

  /** No match starts inside a filter that has no `#`, `:` or `(` and does
      not end in a space. */
  lemma NoMatchInside(e: string, f: string, i: nat)
    requires |f| <= |e| && e[..|f|] == f && NoSuffixStart(f)
    requires f != [] ==> !IsSpace(f[|f| - 1])
    requires i < |f|
    ensures MatchAt(e, i).None?
  {
    assert e[i] == f[i];
    if i + 1 < |f| {
      assert e[i + 1] == f[i + 1];
    }
  }

  /** The pattern matches `:line:column` at its colon, capturing both
      numbers. */
  lemma TypedSuffixMatches(f: string, l: string, c: string)
    requires l != [] && AllDigits(l) && AllDigits(c)
    ensures MatchAt(f + ":" + l + ":" + c, |f|) == Some(Groups(l, Some(c)))
  {
    var e := f + ":" + l + ":" + c;
    var k := |f| + 1;
    var m := k + |l|;
    assert e[|f|] == ':' && e[k..m] == l && e[m] == ':' && e[m + 1..] == c;
    NumbersAfterColon(e, k, m);
    ColonThenDigit(e, |f|);
  }

  /** Digits, a colon and digits up to the end are read as line and column. */
  lemma NumbersAfterColon(e: string, k: nat, m: nat)
    requires k <= m < |e| && AllDigits(e[k..m]) && e[m] == ':' && AllDigits(e[m + 1..])
    ensures NumbersFrom(e, k) == Some(Groups(e[k..m], Some(e[m + 1..])))
  {
    DigitsEndAfter(e, k, m - k);
    assert e[m + 1..m + 1 + (|e| - m - 1)] == e[m + 1..];
    DigitsEndAfter(e, m + 1, |e| - m - 1);
    assert e[|e|..] == [];
  }

  /** At a colon followed by a digit the pattern reads the numbers right
      after the colon. */
  lemma ColonThenDigit(e: string, i: nat)
    requires i + 1 < |e| && e[i] == ':' && IsDigit(e[i + 1])
    ensures MatchAt(e, i) == NumbersFrom(e, i + 1)
  {
    var k := i + 1;
    assert !IsSpace(e[i]) && e[i] in {'#', ':', '('};
    if k + 5 <= |e| {
      assert e[k..k + 5][0] == e[k] && "line "[0] == 'l' && !IsDigit('l');
      assert e[k..k + 5] != "line ";
    }
  }

  /** Typing `file:line:column` after a plain filter gives back the filter
      and the zero-based position of the one-based line and column typed. */
  lemma SplitTypedPosition(f: string, line: nat, column: nat)
    requires NoSuffixStart(f) && (f != [] ==> !IsSpace(f[|f| - 1]))
    requires line >= 1 && column >= 1
    ensures SplitFilterAndRange(f + ":" + NatToDigits(line) + ":" + NatToDigits(column))
         == FilterAndRange(f, Range(Position(line - 1, column - 1), Position(line - 1, column - 1)))
  {
    var l, c := NatToDigits(line), NatToDigits(column);
    var e := f + ":" + l + ":" + c;
    assert e[..|f|] == f;
    TypedSuffixMatches(f, l, c);
    forall i | 0 <= i < |f| ensures MatchAt(e, i).None? {
      NoMatchInside(e, f, i);
    }
    var r := Exec(e);
    assert r.Some?;
    assert r.value.index == |f|;
    assert r == Some(Match(|f|, Groups(l, Some(c))));
    assert PositionOf(Groups(l, Some(c))) == Position(line - 1, column - 1);
  }

  /** A filter with no `#`, `:` or `(` is taken whole, at the top of the
      file. */
  lemma PlainFilterKept(f: string)
    requires NoSuffixStart(f)
    ensures SplitFilterAndRange(f) == FilterAndRange(f, Range(Origin, Origin))
  {
    forall i | 0 <= i <= |f| ensures MatchAt(f, i).None? {
      if i + 1 < |f| {
        assert f[i + 1] !in {'#', ':', '('};
      }
      if i < |f| {
        assert f[i] !in {'#', ':', '('};
      }
    }
  }

  /** A navigation location: its URI as a string and the URI's scheme. */
  datatype Location = Location(uri: string, scheme: string)

  /** An entry of the file pick list. */
  datatype PickItem = FilePick(uri: string) | PickSeparator(labelText: string)

  const RecentSeparator := "recently opened"
  const ResultsSeparator := "file results"

  /** The elements of `s` that are not in `exclude`, each once, in the
      order of their first occurrence. */
  function Dedup(s: seq<string>, exclude: set<string>): (r: seq<string>)
    ensures forall x :: x in r <==> x in s && x !in exclude
  {
    if s == [] then []
    else
      var prev := Dedup(s[..|s| - 1], exclude);
      var x := s[|s| - 1];
      assert forall y :: y in s <==> y in s[..|s| - 1] || y == x;
      if x in exclude || x in prev then prev else prev + [x]
  }

  lemma {:induction false} DedupDistinct(s: seq<string>, exclude: set<string>)
    ensures Distinct(Dedup(s, exclude))
  {
    if s != [] {
      DedupDistinct(s[..|s| - 1], exclude);
    }
  }

  /** The navigation locations (most recent first) whose file URIs pass the
      fuzzy test. */
  function CandidateUris(locations: seq<Location>, fileFilter: string, fuzzyTest: (string, string) -> bool): seq<string> {
    if locations == [] then []
    else
      var last := locations[|locations| - 1];
      CandidateUris(locations[..|locations| - 1], fileFilter, fuzzyTest)
        + (if last.scheme == "file" && fuzzyTest(fileFilter, last.uri) then [last.uri] else [])
  }

  function Reverse<T>(s: seq<T>): (r: seq<T>)
    ensures |r| == |s| && forall k :: 0 <= k < |s| ==> r[k] == s[|s| - 1 - k]
  {
    if s == [] then [] else [s[|s| - 1]] + Reverse(s[..|s| - 1])
  }

  function FilePicks(uris: seq<string>): (r: seq<PickItem>)
    ensures |r| == |uris| && forall k :: 0 <= k < |r| ==> r[k] == FilePick(uris[k])
  {
    seq(|uris|, k requires 0 <= k < |uris| => FilePick(uris[k]))
  }

  /** A group of picks headed by its separator, or nothing when empty. */
  function Headed(separator: string, picks: seq<PickItem>): (r: seq<PickItem>)
    ensures picks == [] ==> r == []
    ensures picks != [] ==> r == [PickSeparator(separator)] + picks
  {
    if |picks| > 0 then [PickSeparator(separator)] + picks else picks
  }

  /** The recently used file URIs the picks show. */
  function RecentUris(locations: seq<Location>, fileFilter: string, fuzzyTest: (string, string) -> bool): seq<string> {
    Dedup(CandidateUris(Reverse(locations), fileFilter, fuzzyTest), {})
  }

  /** The search results the picks show after the recent ones. */
  function ResultUris(results: seq<string>, recent: seq<string>): seq<string> {
    Dedup(results, set u | u in recent)
  }

  /** The picks `getPicks` settles with. `searched` is what the file search
      answered, `cancelled` whether the request was cancelled meanwhile, and
      `compareItems` is the result order, which is not part of this model. */
  function Picks(fileFilter: string, hasRoots: bool, locations: seq<Location>, fuzzyTest: (string, string) -> bool,
                 cancelled: bool, searched: seq<string>, compareItems: (PickItem, PickItem) -> bool): seq<PickItem>
  {
    var recent := RecentUris(locations, fileFilter, fuzzyTest);
    var recentItems := Headed(RecentSeparator, FilePicks(recent));
    if |fileFilter| > 0 then
      if cancelled || |searched| <= 0 then []
      else recentItems + Headed(ResultsSeparator, SortBy(FilePicks(ResultUris(searched, recent)), compareItems))
    else if hasRoots then recentItems
    else []
  }

  /** The sorted search picks: distinct, and each one a file pick of a
      found URI. */
  lemma SortedResults(found: seq<string>, compareItems: (PickItem, PickItem) -> bool)
    requires Distinct(found)
    ensures Distinct(SortBy(FilePicks(found), compareItems))
    ensures forall x :: x in SortBy(FilePicks(found), compareItems) ==> x.FilePick? && x.uri in found
  {
    var sorted := SortBy(FilePicks(found), compareItems);
    FilePicksDistinct(found);
    PermutationKeepsDistinct(FilePicks(found), sorted);
    forall x | x in sorted ensures x.FilePick? && x.uri in found {
      assert x in multiset(sorted);
      assert x in multiset(FilePicks(found));
      var k :| 0 <= k < |found| && FilePicks(found)[k] == x;
    }
  }

  /** A group headed by its separator repeats nothing when its picks are
      distinct file picks. */
  lemma HeadedDistinct(separator: string, picks: seq<PickItem>)
    requires Distinct(picks) && forall x :: x in picks ==> x.FilePick?
    ensures Distinct(Headed(separator, picks))
  {
    if picks != [] {
      DistinctAppend([PickSeparator(separator)], picks);
    }
  }

  /** No pick is listed twice, so every URI appears at most once across the
      recent and the search picks; the recent separator can only head the
      list and every other separator is the search results' one; a search
      that found nothing (or was cancelled) shows nothing, and without a
      filter the recent picks show when a workspace root is open. */
  lemma PicksShape(fileFilter: string, hasRoots: bool, locations: seq<Location>, fuzzyTest: (string, string) -> bool,
                   cancelled: bool, searched: seq<string>, compareItems: (PickItem, PickItem) -> bool)
    ensures var picks := Picks(fileFilter, hasRoots, locations, fuzzyTest, cancelled, searched, compareItems);
      && Distinct(picks)
      && (forall i :: 0 <= i < |picks| && picks[i].PickSeparator? ==>
            || (i == 0 && picks[i].labelText == RecentSeparator)
            || picks[i].labelText == ResultsSeparator)
      && (|fileFilter| > 0 && (cancelled || searched == []) ==> picks == [])
      && (fileFilter == [] ==>
            picks == if hasRoots then Headed(RecentSeparator, FilePicks(RecentUris(locations, fileFilter, fuzzyTest))) else [])
  {
    var recent := RecentUris(locations, fileFilter, fuzzyTest);
    var picks := Picks(fileFilter, hasRoots, locations, fuzzyTest, cancelled, searched, compareItems);
    var ra := Headed(RecentSeparator, FilePicks(recent));
    DedupDistinct(CandidateUris(Reverse(locations), fileFilter, fuzzyTest), {});
    if |fileFilter| > 0 && !cancelled && |searched| > 0 {
      var found := ResultUris(searched, recent);
      var sorted := SortBy(FilePicks(found), compareItems);
      DedupDistinct(searched, set u | u in recent);
      SortedResults(found, compareItems);
      RecentThenResults(recent, found, sorted);
      assert picks == ra + Headed(ResultsSeparator, sorted);
    } else if |fileFilter| == 0 && hasRoots {
      RecentThenResults(recent, [], []);
      assert picks == ra + Headed(ResultsSeparator, []);
    } else {
      assert picks == [];
    }
  }

  /** The recent group followed by the search group: nothing repeated, and
      separators only at the head of the list or heading the results. */
  lemma RecentThenResults(recent: seq<string>, found: seq<string>, sorted: seq<PickItem>)
    requires Distinct(recent) && Distinct(sorted)
    requires forall x :: x in sorted ==> x.FilePick? && x.uri in found
    requires forall u :: u in found ==> u !in recent
    ensures var picks := Headed(RecentSeparator, FilePicks(recent)) + Headed(ResultsSeparator, sorted);
      && Distinct(picks)
      && forall i :: 0 <= i < |picks| && picks[i].PickSeparator? ==>
           || (i == 0 && picks[i].labelText == RecentSeparator)
           || picks[i].labelText == ResultsSeparator
  {
    var ra, rb := Headed(RecentSeparator, FilePicks(recent)), Headed(ResultsSeparator, sorted);
    FilePicksDistinct(recent);
    HeadedDistinct(RecentSeparator, FilePicks(recent));
    HeadedDistinct(ResultsSeparator, sorted);
    forall x | x in ra ensures x == PickSeparator(RecentSeparator) || (x.FilePick? && x.uri in recent) {
      if x != PickSeparator(RecentSeparator) {
        assert x in FilePicks(recent);
        var k :| 0 <= k < |recent| && FilePicks(recent)[k] == x;
      }
    }
    forall x | x in rb ensures x == PickSeparator(ResultsSeparator) || (x.FilePick? && x.uri in found) {
      if x != PickSeparator(ResultsSeparator) {
        assert x in sorted;
      }
    }
    DistinctAppend(ra, rb);
    forall k | 0 < k < |ra| ensures ra[k].FilePick? {
      assert ra[k] == FilePicks(recent)[k - 1];
    }
    forall k | 0 < k < |rb| ensures rb[k].FilePick? {
      assert rb[k] == sorted[k - 1] && sorted[k - 1] in sorted;
    }
    var picks := ra + rb;
    forall i | 0 <= i < |picks| && picks[i].PickSeparator?
      ensures (i == 0 && picks[i].labelText == RecentSeparator) || picks[i].labelText == ResultsSeparator
    {
      if i >= |ra| {
        assert picks[i] == rb[i - |ra|];
      } else {
        assert picks[i] == ra[i];
      }
    }
  }

  lemma {:induction false} FilePicksDistinct(uris: seq<string>)
    requires Distinct(uris)
    ensures Distinct(FilePicks(uris))
  {
  }

  /** One more location in the recent-files loop. */
  lemma RecentStep(reversed: seq<Location>, i: nat, fileFilter: string, fuzzyTest: (string, string) -> bool)
    requires i < |reversed|
    ensures var recent := Dedup(CandidateUris(reversed[..i], fileFilter, fuzzyTest), {});
      var location := reversed[i];
      Dedup(CandidateUris(reversed[..i + 1], fileFilter, fuzzyTest), {})
        == if location.scheme == "file" && location.uri !in recent && fuzzyTest(fileFilter, location.uri)
           then recent + [location.uri] else recent
  {
    var c := CandidateUris(reversed[..i], fileFilter, fuzzyTest);
    assert reversed[..i + 1][..i] == reversed[..i];
    var location := reversed[i];
    if location.scheme == "file" && fuzzyTest(fileFilter, location.uri) {
      assert CandidateUris(reversed[..i + 1], fileFilter, fuzzyTest) == c + [location.uri];
      assert (c + [location.uri])[..|c|] == c;
    } else {
      assert CandidateUris(reversed[..i + 1], fileFilter, fuzzyTest) == c;
    }
  }

  /** One more search result in the results loop. */
  lemma ResultStep(searched: seq<string>, i: nat, exclude: set<string>)
    requires i < |searched|
    ensures Dedup(searched[..i + 1], exclude)
      == if searched[i] in exclude || searched[i] in Dedup(searched[..i], exclude)
         then Dedup(searched[..i], exclude) else Dedup(searched[..i], exclude) + [searched[i]]
  {
    assert searched[..i + 1][..i] == searched[..i];
  }

  /** Pushing a pick onto a headed group, opening it with its separator
      when empty. */
  lemma PushPick(separator: string, uris: seq<string>, u: string)
    ensures Headed(separator, FilePicks(uris + [u]))
         == (if uris == [] then [PickSeparator(separator)] else Headed(separator, FilePicks(uris))) + [FilePick(u)]
  {
    assert FilePicks(uris + [u]) == FilePicks(uris) + [FilePick(u)];
  }

  /** The quick file open service's state. */
  class QuickFileOpenService {
    var hideIgnoredFiles: bool
    var isOpen: bool
    var filterAndRange: FilterAndRange

    constructor()
      ensures hideIgnoredFiles && !isOpen && filterAndRange == FilterAndRangeDefault
    {
      hideIgnoredFiles := true;
      isOpen := false;
      filterAndRange := FilterAndRangeDefault;
    }

    /** `open`: the shortcut pressed while the dialog is open toggles showing
        the ignored files; otherwise it opens the dialog afresh, hiding them
        and clearing the filter. */
    method Open()
      modifies this
      ensures old(isOpen) ==> hideIgnoredFiles == !old(hideIgnoredFiles) && isOpen && filterAndRange == old(filterAndRange)
      ensures !old(isOpen) ==> hideIgnoredFiles && isOpen && filterAndRange == FilterAndRangeDefault
    {
      if isOpen {
        hideIgnoredFiles := !hideIgnoredFiles;
      } else {
        hideIgnoredFiles := true;
        filterAndRange := FilterAndRangeDefault;
        isOpen := true;
      }
    }

    /** `getPicks`: records the split filter and collects the picks, the
        recent files first (newest first), then the search results not
        already listed. */
    method GetPicks(filter: string, hasRoots: bool, locations: seq<Location>, fuzzyTest: (string, string) -> bool,
                    cancelled: bool, searched: seq<string>, compareItems: (PickItem, PickItem) -> bool)
      returns (picks: seq<PickItem>)
      modifies this
      ensures filterAndRange == SplitFilterAndRange(filter)
      ensures hideIgnoredFiles == old(hideIgnoredFiles) && isOpen == old(isOpen)
      ensures picks == Picks(filterAndRange.filter, hasRoots, locations, fuzzyTest, cancelled, searched, compareItems)
    {
      filterAndRange := SplitFilterAndRange(filter);
      var fileFilter := filterAndRange.filter;
      var alreadyCollected, recentlyUsedItems := CollectRecent(Reverse(locations), fileFilter, fuzzyTest);
      ghost var recent := RecentUris(locations, fileFilter, fuzzyTest);
      assert recentlyUsedItems == Headed(RecentSeparator, FilePicks(recent));
      if |fileFilter| > 0 {
        if cancelled || |searched| <= 0 {
          return [];
        }
        var fileSearchResultItems := CollectResults(searched, alreadyCollected);
        assert fileSearchResultItems == FilePicks(ResultUris(searched, recent));
        var sortedResults := SortBy(fileSearchResultItems, compareItems);
        if |sortedResults| > 0 {
          sortedResults := [PickSeparator(ResultsSeparator)] + sortedResults;
        }
        assert sortedResults == Headed(ResultsSeparator, SortBy(fileSearchResultItems, compareItems));
        picks := recentlyUsedItems + sortedResults;
      } else {
        picks := if hasRoots then recentlyUsedItems else [];
      }
    }
  }

  /** The recent-files loop of `getPicks` over the reversed locations: the
      URIs it collected and the headed recent picks. */
  method CollectRecent(reversed: seq<Location>, fileFilter: string, fuzzyTest: (string, string) -> bool)
    returns (alreadyCollected: set<string>, recentlyUsedItems: seq<PickItem>)
    ensures alreadyCollected == set u | u in Dedup(CandidateUris(reversed, fileFilter, fuzzyTest), {})
    ensures recentlyUsedItems == Headed(RecentSeparator, FilePicks(Dedup(CandidateUris(reversed, fileFilter, fuzzyTest), {})))
  {
    alreadyCollected := {};
    ghost var recent: seq<string> := [];
    recentlyUsedItems := [];
    for i := 0 to |reversed|
      invariant recent == Dedup(CandidateUris(reversed[..i], fileFilter, fuzzyTest), {})
      invariant forall u :: u in alreadyCollected <==> u in recent
      invariant recentlyUsedItems == Headed(RecentSeparator, FilePicks(recent))
    {
      var location := reversed[i];
      RecentStep(reversed, i, fileFilter, fuzzyTest);
      PushPick(RecentSeparator, recent, location.uri);
      if location.scheme == "file" && location.uri !in alreadyCollected && fuzzyTest(fileFilter, location.uri) {
        if |recentlyUsedItems| == 0 {
          recentlyUsedItems := recentlyUsedItems + [PickSeparator(RecentSeparator)];
        }
        recentlyUsedItems := recentlyUsedItems + [FilePick(location.uri)];
        recent := recent + [location.uri];
        alreadyCollected := alreadyCollected + {location.uri};
      }
    }
    assert reversed[..|reversed|] == reversed;
  }

  /** The search-results loop of `getPicks`: the picks of the results not
      collected yet, each once. */
  method CollectResults(searched: seq<string>, collected: set<string>) returns (fileSearchResultItems: seq<PickItem>)
    ensures fileSearchResultItems == FilePicks(Dedup(searched, collected))
  {
    var alreadyCollected := collected;
    ghost var found: seq<string> := [];
    fileSearchResultItems := [];
    for i := 0 to |searched|
      invariant found == Dedup(searched[..i], collected)
      invariant forall u :: u in alreadyCollected <==> u in collected || u in found
      invariant fileSearchResultItems == FilePicks(found)
    {
      ResultStep(searched, i, collected);
      assert FilePicks(found + [searched[i]]) == FilePicks(found) + [FilePick(searched[i])];
      var fileUri := searched[i];
      if fileUri !in alreadyCollected {
        fileSearchResultItems := fileSearchResultItems + [FilePick(fileUri)];
        found := found + [fileUri];
        alreadyCollected := alreadyCollected + {fileUri};
      }
    }
    assert searched[..|searched|] == searched;
  }
}
