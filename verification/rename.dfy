/** The plugin host's rename adapter: it checks what a plugin's
    `prepareRename` answers against the cursor and forwards rename edits. */
module Rename {
  import opened Wrappers
  import opened TypeConverters

  /** What `prepareRename` may settle with: nothing (or another falsy value),
      a `Range`, an object that may carry a `range` and a `placeholder`, or a
      truthy value that is neither. */
  datatype PrepareResult =
    | NothingPrepared
    | PreparedRange(range: Range)
    | PreparedObject(objectRange: Option<Range>, placeholder: Option<string>)
    | PreparedOther

  /** The answer sent to the editor: the protocol range and the placeholder
      (`undefined` when the object carried none). */
  datatype RenameLocation = RenameLocation(range: LspRange, placeholder: Option<string>)

  /** `supportsResolving`: the provider has a `prepareRename` function. */
  datatype RenameProvider = RenameProvider(hasPrepareRename: bool)

  function SupportsResolving(provider: RenameProvider): (r: bool)
    ensures r <==> provider.hasPrepareRename
  {
    provider.hasPrepareRename
  }

  /** The range a prepare result offers, if any. */
  function OfferedRange(prepared: PrepareResult): (r: Option<Range>)
    ensures r.Some? ==> prepared.PreparedRange? || prepared.PreparedObject?
    ensures prepared.PreparedRange? ==> r == Some(prepared.range)
    ensures prepared.PreparedObject? ==> r == prepared.objectRange
  {
    match prepared
    case PreparedRange(range) => Some(range)
    case PreparedObject(range, _) => range
    case _ => None
  }

  /** The cursor line lies within the range's first and last lines. */
  predicate CoversLine(range: Range, line: int) {
    range.start.line <= line <= range.end.line
  }

  /** `resolveRenameLocation`: `documentText` reads the document's text in a
      range, `prepared` is what the provider's `prepareRename` settled with.
      Without `prepareRename` the answer is `undefined`; an unknown document
      rejects; a result offering no range, or a range whose lines miss the
      cursor's line, gives `undefined`; otherwise the converted range comes
      back with the document's text of a bare range, or the object's own
      placeholder. */
  function ResolveRenameLocation(provider: RenameProvider, documentKnown: bool, position: LspPosition,
                                 prepared: PrepareResult, documentText: Range -> string)
    : (r: Result<Option<RenameLocation>, string>)
    ensures !provider.hasPrepareRename ==> r == Ok(None)
    ensures provider.hasPrepareRename && !documentKnown ==> r.Err?
    ensures r.Err? ==> provider.hasPrepareRename && !documentKnown
    ensures r.Ok? && r.value.Some? <==>
      && provider.hasPrepareRename && documentKnown
      && OfferedRange(prepared).Some?
      && CoversLine(OfferedRange(prepared).value, position.line)
    ensures r.Ok? && r.value.Some? ==>
      && ToRange(r.value.value.range) == OfferedRange(prepared).value
      && (prepared.PreparedRange? ==> r.value.value.placeholder == Some(documentText(prepared.range)))
      && (prepared.PreparedObject? ==> r.value.value.placeholder == prepared.placeholder)
  {
    if !provider.hasPrepareRename then Ok(None)
    else if !documentKnown then Err("There is no document for the resource")
    else
      var pos := ToPosition(position);
      var (range, text) :=
        match prepared
        case PreparedRange(rg) => (Some(rg), Some(documentText(rg)))
        case PreparedObject(rg, placeholder) => (rg, placeholder)
        case _ => (None, None);
      if range.None? then Ok(None)
      else if range.value.start.line > pos.line || range.value.end.line < pos.line then Ok(None)
      else Ok(Some(RenameLocation(FromRange(range).value, text)))
  }

  /** A range on the cursor's own line is always accepted, whatever the
      columns, and its placeholder for a bare range is the text it covers. */
  lemma CursorLineRangeAccepted(provider: RenameProvider, position: LspPosition, range: Range, documentText: Range -> string)
    requires provider.hasPrepareRename
    requires range.IsSingleLine() && range.start.line == position.line
    ensures ResolveRenameLocation(provider, true, position, PreparedRange(range), documentText)
         == Ok(Some(RenameLocation(FromRange(Some(range)).value, Some(documentText(range)))))
  {
  }

  /** `provideRenameEdits`: `provided` is the provider's answer and
      `convert` stands for the conversion of a workspace edit, which is not
      part of this model. An unknown document rejects and no answer gives
      `undefined`. */
  function ProvideRenameEdits<E, W>(documentKnown: bool, provided: Option<E>, convert: E -> W): (r: Result<Option<W>, string>)
    ensures r.Err? <==> !documentKnown
    ensures documentKnown ==> (r.value.Some? <==> provided.Some?)
    ensures documentKnown && provided.Some? ==> r.value.value == convert(provided.value)
  {
    if !documentKnown then Err("There is no document for the resource")
    else if provided.None? then Ok(None)
    else Ok(Some(convert(provided.value)))
  }

  /** A thrown value as `asMessage` sees it: a string, an `Error` whose
      message is a string or is not, or anything else. */
  datatype Thrown = ThrownString(s: string) | ThrownError(message: Option<string>) | ThrownOther

  function AsMessage(err: Thrown): (r: Option<string>)
    ensures err.ThrownString? ==> r == Some(err.s)
    ensures err.ThrownError? ==> r == err.message
    ensures err.ThrownOther? ==> r.None?
    ensures r.Some? <==> err.ThrownString? || (err.ThrownError? && err.message.Some?)
  {
    match err
    case ThrownString(s) => Some(s)
    case ThrownError(message) => message
    case ThrownOther => None
  }
}
