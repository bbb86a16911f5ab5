/** The command palette's list building: commands may be tied to "when"
    contexts, and the palette shows the valid commands split into a bounded
    list of recently used ones and the sorted rest. The context key service,
    the command registry's visibility and enablement, command equality and
    the command ordering are parameters. */
module QuickCommand {
  import opened Wrappers
  import opened Sequences

  /** A command of the registry; `labelText` is the optional label. */
  datatype Command = Command(id: string, labelText: Option<string>)

  /** The command that clears the history, never listed as recent. */
  const ClearCommandHistory := Command("clear.command.history", Some("Clear Command History"))
  const ExemptedCommands := [ClearCommandHistory]

  /** Some element of `cs` is equal to `c` under `same` (`cs.some(x => Command.equals(c, x))`). */
  predicate SomeSame(cs: seq<Command>, c: Command, same: (Command, Command) -> bool) {
    exists k :: 0 <= k < |cs| && same(c, cs[k])
  }

  /** Some context in `contexts` holds according to `matches`. */
  predicate SomeContextHolds(contexts: seq<string>, matches: string -> bool) {
    exists k :: 0 <= k < |contexts| && matches(contexts[k])
  }

  // ---------------------------------------------------------------------------
  // Contexts

  /** `pushCommandContext`: appends `when` to the command's context list,
      creating the list if needed. */
  function PushContext(contexts: map<string, seq<string>>, commandId: string, when: string): (r: map<string, seq<string>>)
    ensures r.Keys == contexts.Keys + {commandId}
    ensures r[commandId] == (if commandId in contexts then contexts[commandId] else []) + [when]
    ensures forall id :: id in contexts && id != commandId ==> r[id] == contexts[id]
  {
    contexts[commandId := (if commandId in contexts then contexts[commandId] else []) + [when]]
  }

  /** The disposer returned by `pushCommandContext`: removes one occurrence
      of `when` from the command's list, if one is still there. */
  function DisposeContext(contexts: map<string, seq<string>>, commandId: string, when: string): (r: map<string, seq<string>>)
    ensures r.Keys == contexts.Keys
    ensures commandId in contexts ==> r[commandId] == RemoveFirst(contexts[commandId], when)
    ensures forall id :: id in contexts && id != commandId ==> r[id] == contexts[id]
  {
    if commandId in contexts then contexts[commandId := RemoveFirst(contexts[commandId], when)]
    else contexts
  }

  /** Disposing right after pushing gives the command back the contexts it
      had, in order when `when` was not among them; a command that had no
      list is left with an empty one. */
  lemma {:induction false} DisposeAfterPush(contexts: map<string, seq<string>>, commandId: string, when: string)
    ensures commandId in contexts ==>
      multiset(DisposeContext(PushContext(contexts, commandId, when), commandId, when)[commandId]) == multiset(contexts[commandId])
    ensures commandId in contexts && when !in contexts[commandId] ==>
      DisposeContext(PushContext(contexts, commandId, when), commandId, when) == contexts
    ensures commandId !in contexts ==>
      DisposeContext(PushContext(contexts, commandId, when), commandId, when) == contexts[commandId := []]
  {
    if commandId in contexts {
      DisposeAfterPushListed(contexts, commandId, when);
    } else {
      DisposeAfterPushUnlisted(contexts, commandId, when);
    }
  }

  lemma {:induction false} DisposeAfterPushListed(contexts: map<string, seq<string>>, commandId: string, when: string)
    requires commandId in contexts
    ensures multiset(DisposeContext(PushContext(contexts, commandId, when), commandId, when)[commandId]) == multiset(contexts[commandId])
    ensures when !in contexts[commandId] ==> DisposeContext(PushContext(contexts, commandId, when), commandId, when) == contexts
  {
    var pushed := PushContext(contexts, commandId, when);
    var after := DisposeContext(pushed, commandId, when);
    var before := contexts[commandId];
    RemoveFirstAfterPush(before, when);
    assert after[commandId] == RemoveFirst(before + [when], when);
    if when !in before {
      SameEntries(after, contexts, commandId);
    }
  }

  lemma {:induction false} DisposeAfterPushUnlisted(contexts: map<string, seq<string>>, commandId: string, when: string)
    requires commandId !in contexts
    ensures DisposeContext(PushContext(contexts, commandId, when), commandId, when) == contexts[commandId := []]
  {
    var pushed := PushContext(contexts, commandId, when);
    var after := DisposeContext(pushed, commandId, when);
    RemoveFirstAfterPush([], when);
    assert [] + [when] == [when];
    assert after[commandId] == [];
    SameEntries(after, contexts[commandId := []], commandId);
  }

  /** Two maps with the same keys that agree on `key` and on every other key are equal. */
  lemma SameEntries(m: map<string, seq<string>>, n: map<string, seq<string>>, key: string)
    requires m.Keys == n.Keys && key in m && m[key] == n[key]
    requires forall id :: id in m && id != key ==> m[id] == n[id]
    ensures m == n
  {
  }

  // ---------------------------------------------------------------------------
  // Valid commands

  /** A command is valid when it has a label and either no context list is
      registered for it or one of its contexts holds. */
  predicate IsValid(c: Command, contexts: map<string, seq<string>>, matches: string -> bool) {
    Truthy(c.labelText) && (c.id !in contexts || SomeContextHolds(contexts[c.id], matches))
  }

  function ValidIn(contexts: map<string, seq<string>>, matches: string -> bool): Command -> bool {
    c => IsValid(c, contexts, matches)
  }

  function ValidCommands(raw: seq<Command>, contexts: map<string, seq<string>>, matches: string -> bool): seq<Command> {
    Filter(raw, ValidIn(contexts, matches))
  }

  /** A command whose contexts have all been disposed is never valid again,
      although it was valid before its first context was pushed. */
  lemma PushThenDisposeHides(contexts: map<string, seq<string>>, c: Command, when: string, matches: string -> bool)
    requires Truthy(c.labelText) && c.id !in contexts
    ensures IsValid(c, contexts, matches)
    ensures !IsValid(c, DisposeContext(PushContext(contexts, c.id, when), c.id, when), matches)
  {
    DisposeAfterPush(contexts, c.id, when);
  }

  // ---------------------------------------------------------------------------
  // Recent and other commands

  /** The loop building the recent list: with a limit of 0 nothing is taken;
      otherwise a recent command is taken when it is among the valid
      commands, is not exempted, and fewer than `limit` have been taken. */
  function RecentOf(recent: seq<Command>, valid: seq<Command>, limit: int, same: (Command, Command) -> bool): (r: seq<Command>)
    ensures |r| <= |recent|
  {
    if recent == [] then []
    else
      var prev := RecentOf(recent[..|recent| - 1], valid, limit, same);
      var c := recent[|recent| - 1];
      if limit != 0 && SomeSame(valid, c, same) && !SomeSame(ExemptedCommands, c, same) && |prev| < limit
      then prev + [c] else prev
  }

  /** The recent list never exceeds the limit, is empty with a limit of 0,
      and holds only recent commands that are valid and not exempted. */
  lemma {:induction false} RecentOfBounds(recent: seq<Command>, valid: seq<Command>, limit: int, same: (Command, Command) -> bool)
    ensures |RecentOf(recent, valid, limit, same)| <= if limit < 0 then 0 else limit
    ensures limit == 0 ==> RecentOf(recent, valid, limit, same) == []
    ensures forall k :: 0 <= k < |RecentOf(recent, valid, limit, same)| ==>
      && RecentOf(recent, valid, limit, same)[k] in recent
      && SomeSame(valid, RecentOf(recent, valid, limit, same)[k], same)
      && !SomeSame(ExemptedCommands, RecentOf(recent, valid, limit, same)[k], same)
  {
    if recent != [] {
      var init := recent[..|recent| - 1];
      RecentOfBounds(init, valid, limit, same);
      var prev := RecentOf(init, valid, limit, same);
      forall k | 0 <= k < |prev| ensures prev[k] in recent {
        assert prev[k] in init;
      }
    }
  }

  function NotRecent(recent: seq<Command>, same: (Command, Command) -> bool): Command -> bool {
    c => !SomeSame(recent, c, same)
  }

  /** The valid commands equal to no recent one, in order. */
  function OthersOf(valid: seq<Command>, recent: seq<Command>, same: (Command, Command) -> bool): seq<Command> {
    Filter(valid, NotRecent(recent, same))
  }

  /** `normalize`: keeps the labelled, visible and enabled commands, in order. */
  function Shown(visible: string -> bool, enabled: string -> bool): Command -> bool {
    (c: Command) => Truthy(c.labelText) && visible(c.id) && enabled(c.id)
  }

  function Normalize(commands: seq<Command>, visible: string -> bool, enabled: string -> bool): seq<Command> {
    Filter(commands, Shown(visible, enabled))
  }

  /** The list of other commands holds exactly the valid commands equal to no
      recent one; with a reflexive equality no command is in both lists. */
  lemma OthersDisjoint(valid: seq<Command>, recent: seq<Command>, same: (Command, Command) -> bool)
    ensures forall k :: 0 <= k < |OthersOf(valid, recent, same)| ==>
      OthersOf(valid, recent, same)[k] in valid && !SomeSame(recent, OthersOf(valid, recent, same)[k], same)
    ensures forall k :: 0 <= k < |valid| && !SomeSame(recent, valid[k], same) ==> valid[k] in OthersOf(valid, recent, same)
    ensures (forall c :: same(c, c)) ==> forall c :: c in OthersOf(valid, recent, same) ==> c !in recent
  {
    var others := OthersOf(valid, recent, same);
    forall k | 0 <= k < |others| ensures !SomeSame(recent, others[k], same) {
      assert NotRecent(recent, same)(others[k]);
    }
    if forall c :: same(c, c) {
      forall c | c in recent ensures SomeSame(recent, c, same) {
        var j :| 0 <= j < |recent| && recent[j] == c;
        assert same(c, recent[j]);
      }
      forall c | c in others ensures !SomeSame(recent, c, same) {
        var k :| 0 <= k < |others| && others[k] == c;
      }
    }
  }

  /** What the palette shows: the normalized recent list, and the normalized
      other commands ordered by `le`, which hold the same commands as before
      sorting and are ordered when `le` is a total preorder. */
  lemma PaletteLists(recent: seq<Command>, valid: seq<Command>, limit: int, same: (Command, Command) -> bool,
                     visible: string -> bool, enabled: string -> bool, le: (Command, Command) -> bool)
    requires TotalPreorder(le)
    ensures var others := Normalize(OthersOf(valid, RecentOf(recent, valid, limit, same), same), visible, enabled);
      && Sorted(SortBy(others, le), le)
      && multiset(SortBy(others, le)) == multiset(others)
    ensures |Normalize(RecentOf(recent, valid, limit, same), visible, enabled)| <= if limit < 0 then 0 else limit
  {
    RecentOfBounds(recent, valid, limit, same);
    SortBySorted(Normalize(OthersOf(valid, RecentOf(recent, valid, limit, same), same), visible, enabled), le);
  }

  /** The palette's service: the context lists registered per command. */
  class QuickCommandService {
    var contexts: map<string, seq<string>>

    constructor()
      ensures contexts == map[]
    {
      contexts := map[];
    }

    method PushCommandContext(commandId: string, when: string)
      modifies this
      ensures contexts == PushContext(old(contexts), commandId, when)
    {
      var list := if commandId in contexts then contexts[commandId] else [];
      list := list + [when];
      contexts := contexts[commandId := list];
    }

    /** Runs the disposer that `PushCommandContext(commandId, when)` returned. */
    method DisposeCommandContext(commandId: string, when: string)
      modifies this
      ensures contexts == DisposeContext(old(contexts), commandId, when)
    {
      if commandId in contexts {
        var list := contexts[commandId];
        var index := IndexOf(list, when);
        if index != -1 {
          list := list[..index] + list[index + 1..];
        }
        contexts := contexts[commandId := list];
      }
    }

    /** `getValidCommands`: the valid commands of `raw`, in order. */
    method GetValidCommands(raw: seq<Command>, matches: string -> bool) returns (valid: seq<Command>)
      ensures valid == ValidCommands(raw, contexts, matches)
      ensures forall k :: 0 <= k < |valid| ==> valid[k] in raw && IsValid(valid[k], contexts, matches)
      ensures forall k :: 0 <= k < |raw| && IsValid(raw[k], contexts, matches) ==> raw[k] in valid
    {
      valid := [];
      var p := ValidIn(contexts, matches);
      for i := 0 to |raw|
        invariant valid == Filter(raw[..i], p)
      {
        assert raw[..i + 1][..i] == raw[..i];
        var command := raw[i];
        if Truthy(command.labelText) {
          if command.id !in contexts || SomeContextHolds(contexts[command.id], matches) {
            valid := valid + [command];
          }
        }
      }
      assert raw[..|raw|] == raw;
      forall k | 0 <= k < |valid| ensures IsValid(valid[k], contexts, matches) {
        assert p(valid[k]);
      }
      forall k | 0 <= k < |raw| && IsValid(raw[k], contexts, matches) ensures raw[k] in valid {
        assert p(raw[k]);
      }
    }

    /** `getCommands`: `recentCommands` and `commands` are the registry's
        recent and registered commands, `limit` the history preference. */
    method GetCommands(recentCommands: seq<Command>, commands: seq<Command>, limit: int,
                       matches: string -> bool, visible: string -> bool, enabled: string -> bool,
                       same: (Command, Command) -> bool, le: (Command, Command) -> bool)
      returns (recent: seq<Command>, other: seq<Command>)
      ensures var valid := ValidCommands(commands, contexts, matches);
        var taken := RecentOf(recentCommands, valid, limit, same);
        && recent == Normalize(taken, visible, enabled)
        && other == SortBy(Normalize(OthersOf(valid, taken, same), visible, enabled), le)
    {
      var allCommands := GetValidCommands(commands, matches);
      var rCommands: seq<Command> := [];
      for i := 0 to |recentCommands|
        invariant rCommands == RecentOf(recentCommands[..i], allCommands, limit, same)
      {
        assert recentCommands[..i + 1][..i] == recentCommands[..i];
        var r := recentCommands[i];
        if limit != 0 {
          var exempted := SomeSame(ExemptedCommands, r, same);
          var present := SomeSame(allCommands, r, same);
          if present && !exempted && |rCommands| < limit {
            rCommands := rCommands + [r];
          }
        }
      }
      assert recentCommands[..|recentCommands|] == recentCommands;
      var oCommands: seq<Command> := [];
      var notRecent := NotRecent(rCommands, same);
      for i := 0 to |allCommands|
        invariant oCommands == Filter(allCommands[..i], notRecent)
      {
        assert allCommands[..i + 1][..i] == allCommands[..i];
        var a := allCommands[i];
        if !SomeSame(rCommands, a, same) {
          oCommands := oCommands + [a];
        }
      }
      assert allCommands[..|allCommands|] == allCommands;
      recent := Normalize(rCommands, visible, enabled);
      other := SortBy(Normalize(oCommands, visible, enabled), le);
    }
  }
}
