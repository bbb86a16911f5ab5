/** The plugin host's completion adapter: it asks the plugin's completion
    provider for items, converts the acceptable ones to protocol items, and
    remembers them under fresh numeric ids so that the editor can later ask for
    an item to be resolved or for the items to be released.

    `label` is a reserved word of Dafny, so the label of an item is the field
    `labelText`. */
module Completion {
  import opened Wrappers
  import opened Sequences
  import opened TypeConverters

  // ---------------------------------------------------------------------------
  // Items

  /** What an item's `insertText` holds at run time: a string (possibly
      empty), a `SnippetString`, or nothing usable. */
  datatype InsertText = PlainInsert(text: string) | SnippetInsert(value: string) | NoInsertText

  /** A completion item of the plugin API. A `labelText` of `None` stands for a
      label that is not a string at all. */
  datatype CompletionItem = CompletionItem(
    labelText: Option<string>,
    kind: Option<int>,
    detail: Option<string>,
    documentation: Option<MarkedString>,
    filterText: Option<string>,
    sortText: Option<string>,
    preselect: Option<bool>,
    additionalTextEdits: Option<seq<TextEdit>>,
    commitCharacters: Option<seq<string>>,
    range: Option<Range>,
    insertText: InsertText)

  /** `InsertTextFormat.PlainText` and `InsertTextFormat.Snippet` of the protocol. */
  const PlainTextFormat := 1
  const SnippetFormat := 2

  /** A completion item of the protocol; `id` is the number mixed into the
      object under the object-identifier key. */
  datatype LspCompletionItem = LspCompletionItem(
    labelText: string,
    kind: Option<int>,
    detail: Option<string>,
    documentation: Option<MarkupContent>,
    filterText: Option<string>,
    sortText: Option<string>,
    preselect: Option<bool>,
    additionalTextEdits: Option<seq<LspTextEdit>>,
    commitCharacters: Option<seq<string>>,
    textEdit: Option<LspTextEdit>,
    insertText: Option<string>,
    insertTextFormat: Option<int>,
    id: Option<int>)

  datatype LspCompletionList = LspCompletionList(isIncomplete: bool, items: seq<LspCompletionItem>)

  /** What a provider may answer: a bare array of items or a `CompletionList`. */
  datatype ProvidedCompletions =
    | ItemArray(items: seq<CompletionItem>)
    | ItemList(incomplete: Option<bool>, items: seq<CompletionItem>)

  /** `list.isIncomplete || false`; a bare array becomes a list without the flag. */
  function IsIncomplete(provided: ProvidedCompletions): (r: bool)
    ensures r <==> provided.ItemList? && provided.incomplete == Some(true)
  {
    match provided
    case ItemArray(_) => false
    case ItemList(incomplete, _) => incomplete.GetOr(false)
  }

  /** The word range before the cursor: the document's word range at the
      position, or the empty range there, with its end moved to the position. */
  function WordRangeBefore(position: Position, wordRange: Option<Range>): (r: Range)
    ensures r.end == position
    ensures wordRange.None? ==> r == Range(position, position)
    ensures wordRange.Some? ==> r.start == wordRange.value.start
  {
    Range(wordRange.GetOr(Range(position, position)).start, position)
  }

  /** The range an item replaces: its own, or the default one. */
  function EffectiveRange(item: CompletionItem, defaultRange: Range): Range {
    item.range.GetOr(defaultRange)
  }

  /** An item is usable when its label is a non-empty string and the range it
      replaces is a single line on the cursor's line. */
  predicate Acceptable(item: CompletionItem, position: Position, defaultRange: Range) {
    && Truthy(item.labelText)
    && EffectiveRange(item, defaultRange).IsSingleLine()
    && EffectiveRange(item, defaultRange).start.line == position.line
  }

  /** JavaScript truthiness of a documentation value: only the empty string is falsy. */
  predicate DocumentationPresent(documentation: Option<MarkedString>) {
    documentation.Some? && documentation.value != PlainString("")
  }

  function FromTextEdits(edits: seq<TextEdit>): (r: seq<LspTextEdit>)
    ensures |r| == |edits|
    ensures forall k :: 0 <= k < |edits| ==> r[k] == FromTextEdit(edits[k])
  {
    seq(|edits|, k requires 0 <= k < |edits| => FromTextEdit(edits[k]))
  }

  /** Converts an item of the plugin API to a protocol item replacing the
      effective range, or rejects it (`undefined`). */
  function ConvertCompletionItem(item: CompletionItem, position: Position, defaultRange: Range): (r: Option<LspCompletionItem>)
    ensures r.Some? <==> Acceptable(item, position, defaultRange)
    ensures !Truthy(item.labelText) ==> r.None?
  {
    if !Truthy(item.labelText) then None
    else
      var range := EffectiveRange(item, defaultRange);
      if !range.IsSingleLine() || range.start.line != position.line then None
      else
        var (newText, format) :=
          match item.insertText
          case PlainInsert(text) => (text, PlainTextFormat)
          case SnippetInsert(value) => (value, SnippetFormat)
          case NoInsertText => (item.labelText.value, PlainTextFormat);
        Some(LspCompletionItem(
          item.labelText.value,
          Some(FromCompletionItemKind(item.kind)),
          item.detail,
          if DocumentationPresent(item.documentation) then Some(FromMarkdown(item.documentation.value)) else None,
          item.filterText,
          item.sortText,
          item.preselect,
          if item.additionalTextEdits.Some? then Some(FromTextEdits(item.additionalTextEdits.value)) else None,
          item.commitCharacters,
          Some(LspTextEdit(FromRange(Some(range)).value, newText)),
          None,
          Some(format),
          None))
  }

  /** What an accepted item carries over: the label, the converted kind, the
      plain fields, the documentation when it is truthy, the additional edits
      converted one by one, and a text edit over the effective range whose
      text and format follow the item's `insertText`. */
  lemma ConvertedItemFields(item: CompletionItem, position: Position, defaultRange: Range, r: Option<LspCompletionItem>)
    requires r == ConvertCompletionItem(item, position, defaultRange)
    ensures r.Some? ==>
      && r.value.labelText == item.labelText.value
      && r.value.kind == Some(FromCompletionItemKind(item.kind))
      && r.value.detail == item.detail
      && r.value.filterText == item.filterText
      && r.value.sortText == item.sortText
      && r.value.preselect == item.preselect
      && r.value.commitCharacters == item.commitCharacters
      && r.value.id.None? && r.value.insertText.None?
    ensures r.Some? ==>
      (r.value.documentation.Some? <==> DocumentationPresent(item.documentation)) &&
      (r.value.documentation.Some? ==> r.value.documentation.value == FromMarkdown(item.documentation.value))
    ensures r.Some? ==>
      (r.value.additionalTextEdits.Some? <==> item.additionalTextEdits.Some?) &&
      (r.value.additionalTextEdits.Some? ==>
         |r.value.additionalTextEdits.value| == |item.additionalTextEdits.value| &&
         forall k :: 0 <= k < |item.additionalTextEdits.value| ==>
           r.value.additionalTextEdits.value[k] == FromTextEdit(item.additionalTextEdits.value[k]))
    ensures r.Some? ==>
      r.value.textEdit.Some? && r.value.insertTextFormat.Some? &&
      ToRange(r.value.textEdit.value.range) == EffectiveRange(item, defaultRange)
    ensures r.Some? && item.insertText.PlainInsert? ==>
      r.value.textEdit.value.newText == item.insertText.text && r.value.insertTextFormat == Some(PlainTextFormat)
    ensures r.Some? && item.insertText.SnippetInsert? ==>
      r.value.textEdit.value.newText == item.insertText.value && r.value.insertTextFormat == Some(SnippetFormat)
    ensures r.Some? && item.insertText.NoInsertText? ==>
      r.value.textEdit.value.newText == item.labelText.value && r.value.insertTextFormat == Some(PlainTextFormat)
  {
  }

  /** With the default range, an item with a usable label and no range of its
      own is accepted exactly when the word before the cursor starts on the
      cursor's line, and always when there is no word there. */
  lemma DefaultRangeAcceptance(item: CompletionItem, position: Position, wordRange: Option<Range>)
    requires Truthy(item.labelText) && item.range.None?
    ensures ConvertCompletionItem(item, position, WordRangeBefore(position, wordRange)).Some?
        <==> WordRangeBefore(position, wordRange).start.line == position.line
    ensures wordRange.None? ==> ConvertCompletionItem(item, position, WordRangeBefore(position, wordRange)).Some?
  {
  }

  /** The acceptance test as a predicate value, for filtering. */
  function AcceptedBy(position: Position, defaultRange: Range): CompletionItem -> bool {
    item => Acceptable(item, position, defaultRange)
  }

  // ---------------------------------------------------------------------------
  // Id bookkeeping

  /** The adapter's tables are consistent: every id in use is below the
      counter, a list id is never the id of a cached item, and the items of a
      list were numbered after it. */
  predicate Tables(cacheId: int, cache: map<int, CompletionItem>, listCache: map<int, seq<int>>) {
    && 0 <= cacheId
    && (forall key :: key in cache ==> key < cacheId && key !in listCache)
    && (forall key :: key in listCache ==>
          key < cacheId && forall j :: 0 <= j < |listCache[key]| ==> key < listCache[key][j] < cacheId)
  }

  /** `ids` are the consecutive numbers from `start`. */
  predicate Consecutive(ids: seq<int>, start: int) {
    forall k :: 0 <= k < |ids| ==> ids[k] == start + k
  }

  /** `after` is `before` with `items[k]` recorded under `ids[k]` and nothing else. */
  ghost predicate Records(before: map<int, CompletionItem>, after: map<int, CompletionItem>, ids: seq<int>, items: seq<CompletionItem>) {
    && |ids| == |items|
    && (forall k :: 0 <= k < |ids| ==> ids[k] in after && after[ids[k]] == items[k])
    && (forall key :: key in before ==> key in after && after[key] == before[key])
    && (forall key :: key in after ==> key in before || key in ids)
  }

  /** The ids an item list names, as a set. */
  function IdSet(ids: seq<int>): (s: set<int>)
    ensures forall x :: x in s <==> x in ids
  {
    set x | x in ids
  }

  /** Removing freshly recorded ids gives back the cache as it was: releasing a
      whole list undoes the provision that created it. */
  lemma {:induction false} ReleaseUndoesRecords(before: map<int, CompletionItem>, after: map<int, CompletionItem>, ids: seq<int>, items: seq<CompletionItem>)
    requires Records(before, after, ids, items)
    requires forall key :: key in ids ==> key !in before
    ensures after - IdSet(ids) == before
  {
    var released := after - IdSet(ids);
    forall key | key in released ensures key in before && released[key] == before[key] {
      assert key in after && key !in ids;
    }
    forall key | key in before ensures key in released {
      assert key !in ids && key in after;
    }
    assert released.Keys == before.Keys;
  }

  /** Providing a list and then releasing that whole list restores both tables
      exactly: nothing a provision records outlives the release of its list. */
  lemma {:induction false} ProvideThenReleaseList(items: seq<CompletionItem>, pos: Position, defaultRange: Range, listId: int,
                                                  cache0: map<int, CompletionItem>, listCache0: map<int, seq<int>>,
                                                  cacheId: int, cache: map<int, CompletionItem>, listCache: map<int, seq<int>>,
                                                  suggestions: seq<LspCompletionItem>)
    requires Tables(listId, cache0, listCache0)
    requires Provision(items, pos, defaultRange, listId, cache0, listCache0, cacheId, cache, listCache, suggestions)
    ensures listId in listCache
    ensures cache - IdSet(listCache[listId]) == cache0
    ensures listCache - {listId} == listCache0
  {
    var ids := listCache[listId];
    forall key | key in ids ensures key !in cache0 {
      var k :| 0 <= k < |ids| && ids[k] == key;
    }
    ReleaseUndoesRecords(cache0, cache, ids, Filter(items, AcceptedBy(pos, defaultRange)));
    assert listId !in listCache0;
  }

  /** The item cache after `cache.delete(id)`: the key `id`, when there is
      one, is gone and every other entry stays. */
  function CacheAfterRelease(cache: map<int, CompletionItem>, id: Option<int>): (r: map<int, CompletionItem>)
    ensures r.Keys <= cache.Keys
    ensures forall key :: key in r ==> r[key] == cache[key]
    ensures id.Some? ==> id.value !in r && forall key :: key in cache && key != id.value ==> key in r
    ensures id.None? || id.value !in cache ==> r == cache
  {
    if id.Some? then cache - {id.value} else cache
  }

  /** The id the editor passes back when it disposes a completion result: it
      reads `id` from the returned list, which has no such property, so the
      value is always `undefined`. */
  function ReleasedIdOf(list: LspCompletionList): (r: Option<int>)
    ensures r.None?
  {
    None
  }

  /** As called by the editor, `releaseCompletionItems` receives `undefined`:
      deleting it frees nothing, so every list entry and every cached item of
      every list stays. */
  lemma ReleaseAsCalledKeepsItems(cache: map<int, CompletionItem>, listCache: map<int, seq<int>>, list: LspCompletionList)
    ensures CacheAfterRelease(cache, ReleasedIdOf(list)) == cache
    ensures forall id, j :: id in listCache && 0 <= j < |listCache[id]| && listCache[id][j] in cache ==>
      listCache[id][j] in CacheAfterRelease(cache, ReleasedIdOf(list))
  {
  }

  /** `suggestions[k]` is the conversion of `items[k]` carrying the id `ids[k]`. */
  predicate Numbered(suggestions: seq<LspCompletionItem>, ids: seq<int>, items: seq<CompletionItem>,
                     pos: Position, defaultRange: Range) {
    && |suggestions| == |ids| == |items|
    && forall k :: 0 <= k < |suggestions| ==>
         suggestions[k].id == Some(ids[k]) &&
         Some(suggestions[k].(id := None)) == ConvertCompletionItem(items[k], pos, defaultRange)
  }

  lemma NumberedStep(suggestions: seq<LspCompletionItem>, ids: seq<int>, items: seq<CompletionItem>,
                     pos: Position, defaultRange: Range, item: CompletionItem, id: int)
    requires Numbered(suggestions, ids, items, pos, defaultRange)
    requires ConvertCompletionItem(item, pos, defaultRange).Some?
    ensures Numbered(suggestions + [ConvertCompletionItem(item, pos, defaultRange).value.(id := Some(id))],
                     ids + [id], items + [item], pos, defaultRange)
  {
  }

  /** Recording one more item under an unused id keeps the record exact. */
  lemma RecordStep(before: map<int, CompletionItem>, after: map<int, CompletionItem>, ids: seq<int>,
                   items: seq<CompletionItem>, id: int, item: CompletionItem)
    requires Records(before, after, ids, items)
    requires id !in before && id !in ids
    ensures Records(before, after[id := item], ids + [id], items + [item])
  {
  }

  /** Caching an item under the counter, and naming it in the newest list,
      keeps the tables consistent once the counter moves on. */
  lemma TablesStep(cacheId: int, cache: map<int, CompletionItem>, listCache: map<int, seq<int>>, id: int, item: CompletionItem)
    requires Tables(cacheId, cache, listCache)
    requires id in listCache && id == cacheId - 1 - |listCache[id]|
    ensures Tables(cacheId + 1, cache[cacheId := item], listCache[id := listCache[id] + [cacheId]])
  {
  }

  /** What the loop of `provideCompletionItems` has built after the first `i`
      items, starting from the tables `cache0` and `listCache0` with list `id`
      just opened. */
  ghost predicate Collected(items: seq<CompletionItem>, i: int, pos: Position, defaultRange: Range, id: int,
                            cache0: map<int, CompletionItem>, listCache0: map<int, seq<int>>,
                            cacheId: int, cache: map<int, CompletionItem>, listCache: map<int, seq<int>>,
                            itemList: seq<int>, suggestions: seq<LspCompletionItem>, accepted: seq<CompletionItem>) {
    && 0 <= i <= |items|
    && accepted == Filter(items[..i], AcceptedBy(pos, defaultRange))
    && cacheId == id + 1 + |itemList|
    && Consecutive(itemList, id + 1)
    && listCache == listCache0[id := itemList]
    && Records(cache0, cache, itemList, accepted)
    && Numbered(suggestions, itemList, accepted, pos, defaultRange)
    && Tables(cacheId, cache, listCache)
  }

  lemma CollectAccepted(items: seq<CompletionItem>, i: int, pos: Position, defaultRange: Range, id: int,
                        cache0: map<int, CompletionItem>, listCache0: map<int, seq<int>>,
                        cacheId: int, cache: map<int, CompletionItem>, listCache: map<int, seq<int>>,
                        itemList: seq<int>, suggestions: seq<LspCompletionItem>, accepted: seq<CompletionItem>)
    requires Collected(items, i, pos, defaultRange, id, cache0, listCache0, cacheId, cache, listCache, itemList, suggestions, accepted)
    requires forall key :: key in cache0 ==> key <= id
    requires i < |items| && ConvertCompletionItem(items[i], pos, defaultRange).Some?
    ensures Collected(items, i + 1, pos, defaultRange, id, cache0, listCache0, cacheId + 1, cache[cacheId := items[i]],
                      listCache[id := itemList + [cacheId]], itemList + [cacheId],
                      suggestions + [ConvertCompletionItem(items[i], pos, defaultRange).value.(id := Some(cacheId))],
                      accepted + [items[i]])
  {
    FilterStep(items, i, AcceptedBy(pos, defaultRange));
    AcceptedTables(items, i, pos, defaultRange, id, cache0, listCache0, cacheId, cache, listCache, itemList, suggestions, accepted);
    AcceptedRecords(items, i, pos, defaultRange, id, cache0, listCache0, cacheId, cache, listCache, itemList, suggestions, accepted);
    NumberedStep(suggestions, itemList, accepted, pos, defaultRange, items[i], cacheId);
    assert listCache[id := itemList + [cacheId]] == listCache0[id := itemList + [cacheId]];
    assert Consecutive(itemList + [cacheId], id + 1);
  }

  lemma AcceptedTables(items: seq<CompletionItem>, i: int, pos: Position, defaultRange: Range, id: int,
                       cache0: map<int, CompletionItem>, listCache0: map<int, seq<int>>,
                       cacheId: int, cache: map<int, CompletionItem>, listCache: map<int, seq<int>>,
                       itemList: seq<int>, suggestions: seq<LspCompletionItem>, accepted: seq<CompletionItem>)
    requires Collected(items, i, pos, defaultRange, id, cache0, listCache0, cacheId, cache, listCache, itemList, suggestions, accepted)
    requires i < |items|
    ensures Tables(cacheId + 1, cache[cacheId := items[i]], listCache[id := itemList + [cacheId]])
  {
    assert listCache[id] == itemList;
    TablesStep(cacheId, cache, listCache, id, items[i]);
  }

  lemma AcceptedRecords(items: seq<CompletionItem>, i: int, pos: Position, defaultRange: Range, id: int,
                        cache0: map<int, CompletionItem>, listCache0: map<int, seq<int>>,
                        cacheId: int, cache: map<int, CompletionItem>, listCache: map<int, seq<int>>,
                        itemList: seq<int>, suggestions: seq<LspCompletionItem>, accepted: seq<CompletionItem>)
    requires Collected(items, i, pos, defaultRange, id, cache0, listCache0, cacheId, cache, listCache, itemList, suggestions, accepted)
    requires forall key :: key in cache0 ==> key <= id
    requires i < |items|
    ensures Records(cache0, cache[cacheId := items[i]], itemList + [cacheId], accepted + [items[i]])
  {
    assert cacheId !in cache0;
    assert cacheId !in itemList by {
      forall k | 0 <= k < |itemList| ensures itemList[k] < cacheId {
      }
    }
    RecordStep(cache0, cache, itemList, accepted, cacheId, items[i]);
  }

  lemma CollectRejected(items: seq<CompletionItem>, i: int, pos: Position, defaultRange: Range, id: int,
                        cache0: map<int, CompletionItem>, listCache0: map<int, seq<int>>,
                        cacheId: int, cache: map<int, CompletionItem>, listCache: map<int, seq<int>>,
                        itemList: seq<int>, suggestions: seq<LspCompletionItem>, accepted: seq<CompletionItem>)
    requires Collected(items, i, pos, defaultRange, id, cache0, listCache0, cacheId, cache, listCache, itemList, suggestions, accepted)
    requires i < |items| && ConvertCompletionItem(items[i], pos, defaultRange).None?
    ensures Collected(items, i + 1, pos, defaultRange, id, cache0, listCache0, cacheId, cache, listCache, itemList, suggestions, accepted)
  {
    FilterStep(items, i, AcceptedBy(pos, defaultRange));
  }

  /** The outcome of one successful `provideCompletionItems` from the tables
      `cache0` and `listCache0`: list `listId` names the consecutive ids after
      it, one per accepted item; the cache holds each accepted item under its
      id and is otherwise unchanged; the counter has moved past the last id;
      and the answer holds the accepted items' conversions, in order, each
      carrying its id. */
  ghost predicate Provision(items: seq<CompletionItem>, pos: Position, defaultRange: Range, listId: int,
                            cache0: map<int, CompletionItem>, listCache0: map<int, seq<int>>,
                            cacheId: int, cache: map<int, CompletionItem>, listCache: map<int, seq<int>>,
                            suggestions: seq<LspCompletionItem>) {
    var accepted := Filter(items, AcceptedBy(pos, defaultRange));
    && listId in listCache && listCache == listCache0[listId := listCache[listId]]
    && Consecutive(listCache[listId], listId + 1)
    && cacheId == listId + 1 + |accepted|
    && Records(cache0, cache, listCache[listId], accepted)
    && Numbered(suggestions, listCache[listId], accepted, pos, defaultRange)
  }

  /** The three tables of the adapter and its counter. */
  class CompletionAdapter {
    var cacheId: int
    var cache: map<int, CompletionItem>
    var listCache: map<int, seq<int>>
    /** Whether the delegate provider has a `resolveCompletionItem` function. */
    const canResolve: bool

    ghost predicate Valid()
      reads this
    {
      Tables(cacheId, cache, listCache)
    }

    constructor(canResolve: bool)
      ensures Valid()
      ensures cacheId == 0 && cache == map[] && listCache == map[]
      ensures this.canResolve == canResolve
    {
      cacheId := 0;
      cache := map[];
      listCache := map[];
      this.canResolve := canResolve;
    }

    /** Asks for completions at `position`: `provided` is the delegate's answer,
        `wordRange` the document's word range at the position. An unknown
        document rejects; no answer gives `undefined`; otherwise the list draws
        the next id, each accepted item the ones after it, and the list's item
        ids and the original items are remembered under those ids. */
    method ProvideCompletionItems(documentKnown: bool, position: LspPosition, wordRange: Option<Range>,
                                  provided: Option<ProvidedCompletions>)
      returns (r: Result<Option<LspCompletionList>, string>)
      requires Valid()
      modifies this
      ensures Valid()
      ensures r.Err? <==> !documentKnown
      ensures documentKnown && provided.None? ==> r == Ok(None)
      ensures !documentKnown || provided.None? ==>
        cacheId == old(cacheId) && cache == old(cache) && listCache == old(listCache)
      ensures documentKnown && provided.Some? ==>
        var pos := ToPosition(position);
        var defaultRange := WordRangeBefore(pos, wordRange);
        && old(cacheId) !in old(listCache) && old(cacheId) !in old(cache)
        && r.Ok? && r.value.Some?
        && r.value.value.isIncomplete == IsIncomplete(provided.value)
        && Provision(provided.value.items, pos, defaultRange, old(cacheId), old(cache), old(listCache),
                     cacheId, cache, listCache, r.value.value.items)
    {
      if !documentKnown {
        return Err("There are no document for the resource");
      }
      if provided.None? {
        return Ok(None);
      }
      var pos := ToPosition(position);
      var defaultRange := WordRangeBefore(pos, wordRange);
      var id := cacheId;
      cacheId := cacheId + 1;
      listCache := listCache[id := []];
      var suggestions := CollectSuggestions(provided.value.items, pos, defaultRange, id);
      r := Ok(Some(LspCompletionList(IsIncomplete(provided.value), suggestions)));
    }

    /** The loop of `provideCompletionItems` after list `id` has been opened:
        converts each item, and for each accepted one draws the next id,
        appends it to the list and caches the original item under it. */
    method CollectSuggestions(items: seq<CompletionItem>, pos: Position, defaultRange: Range, id: int)
      returns (suggestions: seq<LspCompletionItem>)
      requires Valid()
      requires id in listCache && listCache[id] == [] && cacheId == id + 1
      modifies this
      ensures Valid()
      ensures Provision(items, pos, defaultRange, id, old(cache), old(listCache), cacheId, cache, listCache, suggestions)
    {
      var itemList: seq<int> := [];
      suggestions := [];
      ghost var accepted: seq<CompletionItem> := [];
      for i := 0 to |items|
        invariant Collected(items, i, pos, defaultRange, id, old(cache), old(listCache),
                            cacheId, cache, listCache, itemList, suggestions, accepted)
      {
        var suggestion := ConvertCompletionItem(items[i], pos, defaultRange);
        if suggestion.Some? {
          var itemId := cacheId;
          CollectAccepted(items, i, pos, defaultRange, id, old(cache), old(listCache),
                          cacheId, cache, listCache, itemList, suggestions, accepted);
          cacheId := cacheId + 1;
          suggestions := suggestions + [suggestion.value.(id := Some(itemId))];
          itemList := itemList + [itemId];
          listCache := listCache[id := itemList];
          cache := cache[itemId := items[i]];
          accepted := accepted + [items[i]];
        } else {
          CollectRejected(items, i, pos, defaultRange, id, old(cache), old(listCache),
                          cacheId, cache, listCache, itemList, suggestions, accepted);
        }
      }
      assert items[..|items|] == items;
    }

    /** Resolves a protocol item again through the delegate (`resolve`, applied
        to the cached original item). Without a resolver, without a cached
        item under the item's id, or when the delegate gives nothing back, the
        item comes back unchanged; so it does when the resolved item is not
        acceptable. The document is looked up with a non-null assertion, so an
        unknown document makes the promise reject. */
    method ResolveCompletionItem(documentKnown: bool, position: LspPosition, wordRange: Option<Range>,
                                 completion: LspCompletionItem, resolve: CompletionItem -> Option<CompletionItem>)
      returns (r: Result<LspCompletionItem, string>)
      ensures !canResolve ==> r == Ok(completion)
      ensures completion.id.None? || completion.id.value !in cache ==> r == Ok(completion)
      ensures r.Err? ==> !documentKnown
      ensures r.Ok? && r.value != completion ==>
        && canResolve && completion.id.Some? && completion.id.value in cache
        && resolve(cache[completion.id.value]).Some?
        && Some(r.value) == ConvertCompletionItem(resolve(cache[completion.id.value]).value,
                                                  ToPosition(position), WordRangeBefore(ToPosition(position), wordRange))
      ensures canResolve && completion.id.Some? && completion.id.value in cache ==>
        var resolved := resolve(cache[completion.id.value]);
        && (resolved.None? ==> r == Ok(completion))
        && (resolved.Some? && !documentKnown ==> r.Err?)
        && (resolved.Some? && documentKnown ==>
              r == Ok(ConvertCompletionItem(resolved.value, ToPosition(position),
                                            WordRangeBefore(ToPosition(position), wordRange)).GetOr(completion)))
    {
      if !canResolve {
        return Ok(completion);
      }
      if completion.id.None? || completion.id.value !in cache {
        return Ok(completion);
      }
      var item := cache[completion.id.value];
      var resolved := resolve(item);
      if resolved.None? {
        return Ok(completion);
      }
      if !documentKnown {
        return Err("TypeError: the document is undefined");
      }
      var pos := ToPosition(position);
      var newCompletion := ConvertCompletionItem(resolved.value, pos, WordRangeBefore(pos, wordRange));
      if newCompletion.Some? {
        return Ok(newCompletion.value);
      }
      return Ok(completion);
    }

    /** As written: deletes the cached item under `id`, when `id` is defined,
        and nothing else. */
    method ReleaseCompletionItems(id: Option<int>)
      requires Valid()
      modifies this
      ensures Valid()
      ensures cache == CacheAfterRelease(old(cache), id)
      ensures listCache == old(listCache) && cacheId == old(cacheId)
    {
      if id.Some? {
        cache := cache - {id.value};
      }
    }

    /** Releases the list `id`: its entry in the list table and every cached
        item it names. */
    method ReleaseCompletionList(id: int)
      requires Valid()
      modifies this
      ensures Valid()
      ensures id in old(listCache) ==> cache == old(cache) - IdSet(old(listCache)[id])
      ensures id !in old(listCache) ==> cache == old(cache)
      ensures listCache == old(listCache) - {id} && cacheId == old(cacheId)
    {
      if id in listCache {
        cache := cache - IdSet(listCache[id]);
      }
      listCache := listCache - {id};
    }
  }
}
