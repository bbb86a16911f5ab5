/** The task quick-pick: which recent, configured and provided tasks it
    lists, how it groups and labels them, and when a build or test command
    runs its default task straight away. */
module QuickOpenTask {
  import opened Wrappers
  import opened Sequences

  /** The `TaskScope` enum: `Global = 1`, `Workspace = 2`. */
  datatype TaskScope = Global | Workspace

  /** A task configuration's scope: a workspace folder's URI string or a
      `TaskScope` value. */
  datatype Scope = FolderScope(uri: string) | EnumScope(scope: TaskScope)

  /** The parts of a task configuration this model reads. */
  datatype TaskConfiguration = TaskConfiguration(labelText: string, scope: Scope)

  /** What the configure entries do when picked: open the task
      configuration, or offer the tasks to choose a default build (test) task
      from. */
  datatype Action = ConfigureTasks | ChooseDefaultTask(build: bool)

  /** An entry of the quick pick: a group separator, a task to run, or an
      entry carrying an action. */
  datatype QuickPickItem =
    | SeparatorItem(labelText: string)
    | TaskRunItem(task: TaskConfiguration)
    | ActionItem(labelText: string, action: Action)

  /** `compareTasks` of the task definition registry, which is not part of
      this model: any relation between a first and a second task. */
  type Equivalence = (TaskConfiguration, TaskConfiguration) -> bool

  const RecentGroup := "recently used tasks"
  const ConfiguredGroup := "configured tasks"
  const DetectedGroup := "detected tasks"
  const NoTaskLabel := "No task to run found. Configure Tasks..."

  /** `u => compareTasks(t, u)`. */
  function SameAs(t: TaskConfiguration, same: Equivalence): TaskConfiguration -> bool {
    (u: TaskConfiguration) => same(t, u)
  }

  predicate SameAsAny(s: seq<TaskConfiguration>, t: TaskConfiguration, same: Equivalence) {
    Find(s, SameAs(t, same)).Some?
  }

  function NotSameAsAny(s: seq<TaskConfiguration>, same: Equivalence): TaskConfiguration -> bool {
    (t: TaskConfiguration) => !SameAsAny(s, t, same)
  }

  /** For each recent task, in order, the first of `candidates` equivalent
      to it; recent tasks with no equivalent are dropped. */
  function FilteredRecent(recent: seq<TaskConfiguration>, candidates: seq<TaskConfiguration>, same: Equivalence)
    : (r: seq<TaskConfiguration>)
    ensures |r| <= |recent|
  {
    if recent == [] then []
    else
      var prev := FilteredRecent(recent[..|recent| - 1], candidates, same);
      var last := recent[|recent| - 1];
      match Find(candidates, SameAs(last, same))
      case Some(t) => prev + [t]
      case None => prev
  }

  /** Every listed recent task is a candidate equivalent to some recent
      task. */
  lemma {:induction false} FilteredRecentMembers(recent: seq<TaskConfiguration>, candidates: seq<TaskConfiguration>, same: Equivalence)
    ensures forall t :: t in FilteredRecent(recent, candidates, same) ==>
      t in candidates && exists k :: 0 <= k < |recent| && same(recent[k], t)
  {
    if recent != [] {
      var init := recent[..|recent| - 1];
      var last := recent[|recent| - 1];
      FilteredRecentMembers(init, candidates, same);
      forall t | t in FilteredRecent(recent, candidates, same)
        ensures t in candidates && exists k :: 0 <= k < |recent| && same(recent[k], t)
      {
        if t in FilteredRecent(init, candidates, same) {
          var k :| 0 <= k < |init| && same(init[k], t);
          assert recent[k] == init[k];
        } else {
          var found := Find(candidates, SameAs(last, same));
          assert found == Some(t);
          assert same(recent[|recent| - 1], t);
        }
      }
    }
  }

  /** When every recent task has an equivalent candidate, none is dropped. */
  lemma {:induction false} FilteredRecentKeepsMatched(recent: seq<TaskConfiguration>, candidates: seq<TaskConfiguration>, same: Equivalence)
    requires forall k :: 0 <= k < |recent| ==> exists c :: c in candidates && same(recent[k], c)
    ensures |FilteredRecent(recent, candidates, same)| == |recent|
  {
    if recent != [] {
      var last := recent[|recent| - 1];
      var c :| c in candidates && same(last, c);
      var j :| 0 <= j < |candidates| && candidates[j] == c;
      assert Find(candidates, SameAs(last, same)).Some?;
      FilteredRecentKeepsMatched(recent[..|recent| - 1], candidates, same);
    }
  }

  /** `getFilteredTasks`: the three de-duplicated lists. */
  method GetFilteredTasks(recent: seq<TaskConfiguration>, configured: seq<TaskConfiguration>,
                          provided: seq<TaskConfiguration>, same: Equivalence)
    returns (filteredRecent: seq<TaskConfiguration>, filteredConfigured: seq<TaskConfiguration>,
             filteredProvided: seq<TaskConfiguration>)
    ensures filteredRecent == FilteredRecent(recent, configured + provided, same)
    ensures filteredProvided == Filter(provided, NotSameAsAny(filteredRecent + configured, same))
    ensures filteredConfigured == Filter(configured, NotSameAsAny(filteredRecent, same))
  {
    filteredRecent := CollectFilteredRecent(recent, configured + provided, same);
    filteredProvided := FilterOutSame(provided, filteredRecent + configured, same);
    filteredConfigured := FilterOutSame(configured, filteredRecent, same);
  }

  /** The first loop of `getFilteredTasks`: each recent task's first
      equivalent candidate. */
  method CollectFilteredRecent(recent: seq<TaskConfiguration>, candidates: seq<TaskConfiguration>, same: Equivalence)
    returns (filteredRecent: seq<TaskConfiguration>)
    ensures filteredRecent == FilteredRecent(recent, candidates, same)
  {
    filteredRecent := [];
    for i := 0 to |recent|
      invariant filteredRecent == FilteredRecent(recent[..i], candidates, same)
    {
      assert recent[..i + 1][..i] == recent[..i];
      var original := Find(candidates, SameAs(recent[i], same));
      if original.Some? {
        filteredRecent := filteredRecent + [original.value];
      }
    }
    assert recent[..|recent|] == recent;
  }

  /** The other two loops of `getFilteredTasks`: the tasks equivalent to
      none of `listed`. */
  method FilterOutSame(tasks: seq<TaskConfiguration>, listed: seq<TaskConfiguration>, same: Equivalence)
    returns (kept: seq<TaskConfiguration>)
    ensures kept == Filter(tasks, NotSameAsAny(listed, same))
  {
    kept := [];
    for i := 0 to |tasks|
      invariant kept == Filter(tasks[..i], NotSameAsAny(listed, same))
    {
      FilterStep(tasks, i, NotSameAsAny(listed, same));
      var present := SameAsAny(listed, tasks[i], same);
      if !present {
        kept := kept + [tasks[i]];
      }
    }
    assert tasks[..|tasks|] == tasks;
  }

  /** No task is lost by the de-duplication: every configured task is listed
      or equivalent to a listed recent one, and every provided task is listed
      or equivalent to a listed recent or a configured one. Nothing listed
      as configured or provided is equivalent to a task listed before it. */
  lemma FilteredTasksCover(recent: seq<TaskConfiguration>, configured: seq<TaskConfiguration>,
                           provided: seq<TaskConfiguration>, same: Equivalence)
    ensures var fr := FilteredRecent(recent, configured + provided, same);
      && (forall c :: c in configured ==>
            c in Filter(configured, NotSameAsAny(fr, same)) || SameAsAny(fr, c, same))
      && (forall p :: p in provided ==>
            p in Filter(provided, NotSameAsAny(fr + configured, same)) || SameAsAny(fr + configured, p, same))
      && (forall c :: c in Filter(configured, NotSameAsAny(fr, same)) ==> !SameAsAny(fr, c, same))
      && (forall p :: p in Filter(provided, NotSameAsAny(fr + configured, same)) ==> !SameAsAny(fr + configured, p, same))
  {
    var fr := FilteredRecent(recent, configured + provided, same);
    forall c | c in configured
      ensures c in Filter(configured, NotSameAsAny(fr, same)) || SameAsAny(fr, c, same)
    {
      var k :| 0 <= k < |configured| && configured[k] == c;
    }
    forall p | p in provided
      ensures p in Filter(provided, NotSameAsAny(fr + configured, same)) || SameAsAny(fr + configured, p, same)
    {
      var k :| 0 <= k < |provided| && provided[k] == p;
    }
    forall c | c in Filter(configured, NotSameAsAny(fr, same)) ensures !SameAsAny(fr, c, same) {
      var r := Filter(configured, NotSameAsAny(fr, same));
      var k :| 0 <= k < |r| && r[k] == c;
    }
    forall p | p in Filter(provided, NotSameAsAny(fr + configured, same))
      ensures !SameAsAny(fr + configured, p, same)
    {
      var r := Filter(provided, NotSameAsAny(fr + configured, same));
      var k :| 0 <= k < |r| && r[k] == p;
    }
  }

  /** One task entry per task, in order. */
  function AsItems(tasks: seq<TaskConfiguration>): (r: seq<QuickPickItem>)
    ensures |r| == |tasks|
    ensures forall k :: 0 <= k < |r| ==> r[k].TaskRunItem? && r[k].task == tasks[k]
  {
    seq(|tasks|, k requires 0 <= k < |tasks| => TaskRunItem(tasks[k]))
  }

  lemma AsItemsAppend(a: seq<TaskConfiguration>, b: seq<TaskConfiguration>)
    ensures AsItems(a + b) == AsItems(a) + AsItems(b)
  {
    var l, r := AsItems(a + b), AsItems(a) + AsItems(b);
    assert |l| == |r|;
    forall k | 0 <= k < |l| ensures l[k] == r[k] {
      if k < |a| {
        assert r[k] == AsItems(a)[k];
      } else {
        assert r[k] == AsItems(b)[k - |a|];
      }
    }
  }

  /** `getItems`: the tasks' entries, headed by one separator carrying the
      group label when there is at least one task. */
  function GetItems(tasks: seq<TaskConfiguration>, groupLabel: string): (r: seq<QuickPickItem>)
    ensures tasks == [] ==> r == []
    ensures tasks != [] ==> |r| == |tasks| + 1 && r[0] == SeparatorItem(groupLabel)
    ensures tasks != [] ==> r[1..] == AsItems(tasks)
  {
    var items := AsItems(tasks);
    if |items| > 0 then [SeparatorItem(groupLabel)] + items else items
  }

  /** `item.type !== 'separator' && item.task !== undefined`. */
  predicate IsTaskItem(item: QuickPickItem) {
    item.TaskRunItem?
  }

  /** Task entries pass the task-entry filter untouched. */
  lemma TaskItemsKept(tasks: seq<TaskConfiguration>)
    ensures Filter(AsItems(tasks), IsTaskItem) == AsItems(tasks)
  {
    FilterAll(AsItems(tasks), IsTaskItem);
  }

  /** The task entries of a group are exactly its tasks' entries. */
  lemma TaskItemsOfGroup(tasks: seq<TaskConfiguration>, groupLabel: string)
    ensures Filter(GetItems(tasks, groupLabel), IsTaskItem) == AsItems(tasks)
  {
    TaskItemsKept(tasks);
    if tasks != [] {
      FilterAppend([SeparatorItem(groupLabel)], AsItems(tasks), IsTaskItem);
      assert Filter([SeparatorItem(groupLabel)], IsTaskItem) == [] by {
        assert [SeparatorItem(groupLabel)][..0] == [];
      }
    }
  }

  /** The entries `doInit` leaves in `items`. */
  function InitItems(recent: seq<TaskConfiguration>, configured: seq<TaskConfiguration>,
                     provided: seq<TaskConfiguration>, same: Equivalence): seq<QuickPickItem>
  {
    var fr := FilteredRecent(recent, configured + provided, same);
    GetItems(fr, RecentGroup)
      + GetItems(Filter(configured, NotSameAsAny(fr, same)), ConfiguredGroup)
      + GetItems(Filter(provided, NotSameAsAny(fr + configured, same)), DetectedGroup)
  }

  /** The tasks `doInit` lists are the filtered recent, then configured, then
      provided tasks, and the list is empty exactly when all three are. */
  lemma InitItemsTasks(recent: seq<TaskConfiguration>, configured: seq<TaskConfiguration>,
                       provided: seq<TaskConfiguration>, same: Equivalence)
    ensures var fr := FilteredRecent(recent, configured + provided, same);
      var fc := Filter(configured, NotSameAsAny(fr, same));
      var fp := Filter(provided, NotSameAsAny(fr + configured, same));
      && Filter(InitItems(recent, configured, provided, same), IsTaskItem) == AsItems(fr + fc + fp)
      && (InitItems(recent, configured, provided, same) == [] <==> fr + fc + fp == [])
  {
    var fr := FilteredRecent(recent, configured + provided, same);
    var fc := Filter(configured, NotSameAsAny(fr, same));
    var fp := Filter(provided, NotSameAsAny(fr + configured, same));
    var a, b, c := GetItems(fr, RecentGroup), GetItems(fc, ConfiguredGroup), GetItems(fp, DetectedGroup);
    FilterAppend(a + b, c, IsTaskItem);
    FilterAppend(a, b, IsTaskItem);
    TaskItemsOfGroup(fr, RecentGroup);
    TaskItemsOfGroup(fc, ConfiguredGroup);
    TaskItemsOfGroup(fp, DetectedGroup);
    AsItemsAppend(fr, fc);
    AsItemsAppend(fr + fc, fp);
  }

  /** The first line of an empty build (test) pick. */
  function NoKindLabel(build: bool): string {
    if build then "No build task to run found. Configure Build Task..."
    else "No test task to run found. Configure Test Task..."
  }

  /** `TaskCustomization.isBuildTask`, `isTestTask`, `isDefaultBuildTask`
      and `isDefaultTestTask`, which are not part of this model. */
  datatype TaskGroups = TaskGroups(
    isBuild: TaskConfiguration -> bool, isTest: TaskConfiguration -> bool,
    isDefaultBuild: TaskConfiguration -> bool, isDefaultTest: TaskConfiguration -> bool)

  /** The task entries among `items`. */
  function TaskItems(items: seq<QuickPickItem>): seq<QuickPickItem> {
    Filter(items, IsTaskItem)
  }

  /** The task entries of the build (test) kind. */
  function KindItems(items: seq<QuickPickItem>, groups: TaskGroups, build: bool): seq<QuickPickItem> {
    Filter(TaskItems(items), OfKind(groups, build))
  }

  /** The task entries marked as the default of that kind. */
  function Defaults(items: seq<QuickPickItem>, groups: TaskGroups, build: bool): seq<QuickPickItem> {
    Filter(KindItems(items, groups, build), DefaultOfKind(groups, build))
  }

  function OfKind(groups: TaskGroups, build: bool): QuickPickItem -> bool {
    (item: QuickPickItem) => item.TaskRunItem? && (if build then groups.isBuild(item.task) else groups.isTest(item.task))
  }

  function DefaultOfKind(groups: TaskGroups, build: bool): QuickPickItem -> bool {
    (item: QuickPickItem) => item.TaskRunItem? && (if build then groups.isDefaultBuild(item.task) else groups.isDefaultTest(item.task))
  }

  /** The task scope's display: a folder's display name in a multi-root
      workspace, nothing in a single-root one, and the enum member's name for
      an enum scope. `displayName` stands for `URI.displayName`. */
  function RenderScope(scope: Scope, isMulti: bool, displayName: string -> string): (r: string)
    ensures scope.FolderScope? && isMulti ==> r == displayName(scope.uri)
    ensures scope.FolderScope? && !isMulti ==> r == ""
    ensures scope == EnumScope(Global) ==> r == "Global"
    ensures scope == EnumScope(Workspace) ==> r == "Workspace"
  {
    match scope
    case FolderScope(uri) => if isMulti then displayName(uri) else ""
    case EnumScope(Global) => "Global"
    case EnumScope(Workspace) => "Workspace"
  }

  /** `scope.toString()`: a folder's URI, or the enum member's number. */
  function ScopeKey(scope: Scope): string {
    match scope
    case FolderScope(uri) => uri
    case EnumScope(Global) => "1"
    case EnumScope(Workspace) => "2"
  }

  /** Scopes whose folder URIs carry a scheme (and so a colon) get distinct
      keys: grouping by key is grouping by scope. */
  lemma ScopeKeysSeparate(a: Scope, b: Scope)
    requires a.FolderScope? ==> ':' in a.uri
    requires b.FolderScope? ==> ':' in b.uri
    ensures ScopeKey(a) == ScopeKey(b) <==> a == b
  {
    if a.FolderScope? && b.EnumScope? {
      assert ':' !in ScopeKey(b);
    } else if a.EnumScope? && b.FolderScope? {
      assert ':' !in ScopeKey(a);
    }
  }

  function InScope(key: string): TaskConfiguration -> bool {
    (t: TaskConfiguration) => ScopeKey(t.scope) == key
  }

  /** `localeCompare` on the labels, as an order on tasks. */
  function ByLabel(labelLe: (string, string) -> bool): (TaskConfiguration, TaskConfiguration) -> bool {
    (a: TaskConfiguration, b: TaskConfiguration) => labelLe(a.labelText, b.labelText)
  }

  /** `grouped` holds the groups of `getGroupedTasksByWorkspaceFolder`: one
      per scope key that occurs, holding that scope's tasks sorted by
      label. */
  predicate IsGrouping(tasks: seq<TaskConfiguration>, labelLe: (string, string) -> bool,
                       grouped: map<string, seq<TaskConfiguration>>) {
    && grouped.Keys == ScopeKeys(tasks)
    && forall key :: key in grouped ==> grouped[key] == SortBy(Filter(tasks, InScope(key)), ByLabel(labelLe))
  }

  /** Each task lies in exactly the group keyed by its scope, each group
      holds its scope's tasks with their multiplicities, and under a total
      label order each group is sorted. */
  lemma GroupingPartitions(tasks: seq<TaskConfiguration>, labelLe: (string, string) -> bool,
                           grouped: map<string, seq<TaskConfiguration>>)
    requires IsGrouping(tasks, labelLe, grouped)
    ensures forall t :: t in tasks ==> ScopeKey(t.scope) in grouped
    ensures forall t, key :: t in tasks && key in grouped ==> (t in grouped[key] <==> ScopeKey(t.scope) == key)
    ensures forall key :: key in grouped ==> multiset(grouped[key]) == multiset(Filter(tasks, InScope(key)))
    ensures TotalPreorder(ByLabel(labelLe)) ==>
      forall key :: key in grouped ==> Sorted(grouped[key], ByLabel(labelLe))
  {
    forall t, key | t in tasks && key in grouped ensures t in grouped[key] <==> ScopeKey(t.scope) == key {
      var group := Filter(tasks, InScope(key));
      assert multiset(grouped[key]) == multiset(group);
      assert t in grouped[key] <==> t in multiset(grouped[key]);
      assert t in group <==> t in multiset(group);
      var k :| 0 <= k < |tasks| && tasks[k] == t;
      if t in group {
        var j :| 0 <= j < |group| && group[j] == t;
      }
    }
    if TotalPreorder(ByLabel(labelLe)) {
      forall key | key in grouped ensures Sorted(grouped[key], ByLabel(labelLe)) {
        SortBySorted(Filter(tasks, InScope(key)), ByLabel(labelLe));
      }
    }
  }

  /** The scope keys occurring among the tasks. */
  function ScopeKeys(tasks: seq<TaskConfiguration>): set<string> {
    set t | t in tasks :: ScopeKey(t.scope)
  }

  /** The map the collecting loop builds over `tasks`, one task at a time:
      a task's key gets a new group or the task is pushed onto it. */
  function Collect(tasks: seq<TaskConfiguration>): map<string, seq<TaskConfiguration>> {
    if tasks == [] then map[]
    else
      var groups := Collect(tasks[..|tasks| - 1]);
      var task := tasks[|tasks| - 1];
      var key := ScopeKey(task.scope);
      if key in groups then groups[key := groups[key] + [task]] else groups[key := [task]]
  }

  /** A key occurs among the tasks exactly when its filter is non-empty. */
  lemma ScopeKeysFilter(tasks: seq<TaskConfiguration>, key: string)
    ensures key in ScopeKeys(tasks) <==> Filter(tasks, InScope(key)) != []
  {
    if key in ScopeKeys(tasks) {
      var t :| t in tasks && ScopeKey(t.scope) == key;
      var k :| 0 <= k < |tasks| && tasks[k] == t;
    }
    if Filter(tasks, InScope(key)) != [] {
      var u := Filter(tasks, InScope(key))[0];
      assert u in tasks && ScopeKey(u.scope) == key;
    }
  }

  /** The collected groups are keyed by the scope keys that occur. */
  lemma {:induction false} CollectKeys(tasks: seq<TaskConfiguration>)
    ensures Collect(tasks).Keys == ScopeKeys(tasks)
  {
    if tasks != [] {
      var init := tasks[..|tasks| - 1];
      CollectKeys(init);
      assert forall t :: t in tasks <==> t in init || t == tasks[|tasks| - 1];
      assert ScopeKeys(tasks) == ScopeKeys(init) + {ScopeKey(tasks[|tasks| - 1].scope)};
    }
  }

  /** Each collected group is its key's filter of the tasks, in task order. */
  lemma {:induction false} CollectGroups(tasks: seq<TaskConfiguration>)
    ensures forall key :: key in Collect(tasks) ==> Collect(tasks)[key] == Filter(tasks, InScope(key))
  {
    if tasks != [] {
      var init := tasks[..|tasks| - 1];
      var task := tasks[|tasks| - 1];
      var key := ScopeKey(task.scope);
      var groups := Collect(init);
      CollectGroups(init);
      assert tasks[..|tasks|] == tasks;
      forall other | other in Collect(tasks) ensures Collect(tasks)[other] == Filter(tasks, InScope(other)) {
        FilterStep(tasks, |tasks| - 1, InScope(other));
        if other != key {
          assert Collect(tasks)[other] == groups[other];
        } else if key in groups {
          assert Collect(tasks)[key] == groups[key] + [task];
        } else {
          CollectKeys(init);
          ScopeKeysFilter(init, key);
          assert Collect(tasks)[key] == [task];
        }
      }
    }
  }

  /** `getGroupedTasksByWorkspaceFolder`: collects the tasks by scope key,
      then sorts each group by label. */
  method GroupTasksByScope(tasks: seq<TaskConfiguration>, labelLe: (string, string) -> bool)
    returns (grouped: map<string, seq<TaskConfiguration>>)
    ensures IsGrouping(tasks, labelLe, grouped)
  {
    var collected := CollectByScope(tasks);
    grouped := SortGroups(collected, labelLe);
    CollectKeys(tasks);
    CollectGroups(tasks);
  }

  /** The collecting loop of `getGroupedTasksByWorkspaceFolder`. */
  method CollectByScope(tasks: seq<TaskConfiguration>) returns (grouped: map<string, seq<TaskConfiguration>>)
    ensures grouped == Collect(tasks)
  {
    grouped := map[];
    for i := 0 to |tasks|
      invariant grouped == Collect(tasks[..i])
    {
      assert tasks[..i + 1][..i] == tasks[..i];
      var key := ScopeKey(tasks[i].scope);
      if key in grouped {
        grouped := grouped[key := grouped[key] + [tasks[i]]];
      } else {
        grouped := grouped[key := [tasks[i]]];
      }
    }
    assert tasks[..|tasks|] == tasks;
  }

  /** The sorting loop of `getGroupedTasksByWorkspaceFolder`: every group
      sorted by label, under the same keys. */
  method SortGroups(grouped: map<string, seq<TaskConfiguration>>, labelLe: (string, string) -> bool)
    returns (result: map<string, seq<TaskConfiguration>>)
    ensures result.Keys == grouped.Keys
    ensures forall key :: key in result ==> result[key] == SortBy(grouped[key], ByLabel(labelLe))
  {
    result := grouped;
    var remaining := grouped.Keys;
    while remaining != {}
      invariant remaining <= grouped.Keys && result.Keys == grouped.Keys
      invariant forall key :: key in result && key in remaining ==> result[key] == grouped[key]
      invariant forall key :: key in result && key !in remaining ==> result[key] == SortBy(grouped[key], ByLabel(labelLe))
      decreases remaining
    {
      var key :| key in remaining;
      result := result[key := SortBy(result[key], ByLabel(labelLe))];
      remaining := remaining - {key};
    }
  }

  /** The task quick-pick's state: the entries it shows and the tasks it
      handed to the task service to run. */
  class QuickOpenTaskService {
    var items: seq<QuickPickItem>
    var ran: seq<TaskConfiguration>

    constructor()
      ensures items == [] && ran == []
    {
      items := [];
      ran := [];
    }

    /** `doInit`: rebuilds the entries from the recent, configured and
        provided tasks. */
    method DoInit(recent: seq<TaskConfiguration>, configured: seq<TaskConfiguration>,
                  provided: seq<TaskConfiguration>, same: Equivalence)
      modifies this
      ensures items == InitItems(recent, configured, provided, same)
      ensures ran == old(ran)
    {
      var filteredRecent, filteredConfigured, filteredProvided := GetFilteredTasks(recent, configured, provided, same);
      items := [];
      var recentItems := GetItems(filteredRecent, RecentGroup);
      var configuredItems := GetItems(filteredConfigured, ConfiguredGroup);
      var providedItems := GetItems(filteredProvided, DetectedGroup);
      assert items + (recentItems + configuredItems + providedItems) == recentItems + configuredItems + providedItems;
      items := items + (recentItems + configuredItems + providedItems);
    }

    /** `open`: the entries of `doInit`, or a single entry offering to
        configure tasks when there are none. */
    method Open(recent: seq<TaskConfiguration>, configured: seq<TaskConfiguration>,
                provided: seq<TaskConfiguration>, same: Equivalence)
      modifies this
      ensures InitItems(recent, configured, provided, same) != [] ==> items == InitItems(recent, configured, provided, same)
      ensures InitItems(recent, configured, provided, same) == [] ==> items == [ActionItem(NoTaskLabel, ConfigureTasks)]
      ensures ran == old(ran)
    {
      DoInit(recent, configured, provided, same);
      if |items| == 0 {
        items := items + [ActionItem(NoTaskLabel, ConfigureTasks)];
      }
    }

    /** `runBuildOrTestTask`: after `doInit`, runs the default build (test)
        task when there is exactly one; otherwise shows the build (test)
        tasks, or an entry to configure one when there are none. */
    method RunBuildOrTestTask(build: bool, recent: seq<TaskConfiguration>, configured: seq<TaskConfiguration>,
                              provided: seq<TaskConfiguration>, same: Equivalence, groups: TaskGroups)
      modifies this
      ensures var init := InitItems(recent, configured, provided, same);
        && (ran != old(ran) <==> |Defaults(init, groups, build)| == 1)
        && (|Defaults(init, groups, build)| == 1 ==>
              ran == old(ran) + [Defaults(init, groups, build)[0].task] && items == init)
        && (KindItems(init, groups, build) != [] && |Defaults(init, groups, build)| != 1 ==>
              items == KindItems(init, groups, build))
        && (TaskItems(init) != [] && KindItems(init, groups, build) == [] ==>
              items == [ActionItem(NoKindLabel(build), ChooseDefaultTask(build))])
        && (TaskItems(init) == [] ==> items == [ActionItem(NoKindLabel(build), ConfigureTasks)])
    {
      DoInit(recent, configured, provided, same);
      ghost var init := items;
      var direct, shown := ChooseBuildOrTest(items, groups, build);
      if direct.Some? {
        ran := ran + [direct.value];
      } else {
        items := shown;
      }
    }
  }

  /** The decision `runBuildOrTestTask` takes on the listed entries: the one
      default task of the kind to run directly, or else the entries to show
      (the tasks of the kind, or an action when there are none). */
  method ChooseBuildOrTest(items: seq<QuickPickItem>, groups: TaskGroups, build: bool)
    returns (direct: Option<TaskConfiguration>, shown: seq<QuickPickItem>)
    ensures direct.Some? <==> |Defaults(items, groups, build)| == 1
    ensures direct.Some? ==> direct.value == Defaults(items, groups, build)[0].task
    ensures KindItems(items, groups, build) != [] && direct.None? ==> shown == KindItems(items, groups, build)
    ensures TaskItems(items) != [] && KindItems(items, groups, build) == [] ==>
      shown == [ActionItem(NoKindLabel(build), ChooseDefaultTask(build))]
    ensures TaskItems(items) == [] ==> shown == [ActionItem(NoKindLabel(build), ConfigureTasks)]
  {
    direct := None;
    var taskItems := TaskItems(items);
    if |taskItems| > 0 {
      var kindItems := KindItems(items, groups, build);
      if |kindItems| > 0 {
        var defaults := Defaults(items, groups, build);
        if |defaults| == 1 {
          direct := Some(defaults[0].task);
        }
        shown := kindItems;
      } else {
        shown := [ActionItem(NoKindLabel(build), ChooseDefaultTask(build))];
      }
    } else {
      shown := [ActionItem(NoKindLabel(build), ConfigureTasks)];
    }
  }

  /** The task a build (test) command runs directly is one of the listed
      tasks, of that kind and marked as its default. With `InitItemsTasks`,
      the listed tasks are the filtered recent, configured and provided
      ones. */
  lemma {:induction false} DirectRunIsTheDefault(items: seq<QuickPickItem>, tasks: seq<TaskConfiguration>,
                                                 groups: TaskGroups, build: bool)
    requires TaskItems(items) == AsItems(tasks)
    ensures |Defaults(items, groups, build)| == 1 ==>
      var d := Defaults(items, groups, build)[0].task;
      && d in tasks
      && (if build then groups.isBuild(d) && groups.isDefaultBuild(d) else groups.isTest(d) && groups.isDefaultTest(d))
  {
    var taskItems := TaskItems(items);
    var kindItems := KindItems(items, groups, build);
    var defaults := Defaults(items, groups, build);
    if |defaults| == 1 {
      var d := defaults[0];
      assert d in kindItems && OfKind(groups, build)(d);
      var k :| 0 <= k < |taskItems| && taskItems[k] == d;
      assert d.task == tasks[k];
    }
  }
}
