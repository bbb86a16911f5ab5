/** Helpers of the main (editor) side of the language features: document
    selector matching, the protocol-to-editor maps for completion kinds and
    snippet formats, the conversion of a protocol completion item into an
    editor suggestion, the table of registrations by handle, and the revival
    of serialized language configurations. */
module LanguagesMain {
  import opened Wrappers
  import opened TypeConverters
  import opened Completion

  // ---------------------------------------------------------------------------
  // Selectors

  /** A language selector: an array of selectors, a document filter, a
      language id, or `undefined`. */
  datatype LanguageSelector =
    | SelectorArray(selectors: seq<LanguageSelector>)
    | DocumentFilter(language: Option<string>, scheme: Option<string>, pattern: Option<string>)
    | LanguageId(id: string)
    | NoSelector

  /** The editor model a selector is matched against. */
  datatype ModelIdentifier = ModelIdentifier(languageId: string, scheme: string, path: string)

  /** Some element of `selectors` satisfies `matches`, standing for `Array.prototype.some`. */
  predicate SomeMatch(selectors: seq<LanguageSelector>, matches: LanguageSelector -> bool) {
    exists k :: 0 <= k < |selectors| && matches(selectors[k])
  }

  /** `matchLanguage`: an array matches when one of its elements does; a
      filter with no (or an empty) language matches every language and
      otherwise only its own; a language id matches itself only. */
  predicate MatchLanguage(selector: LanguageSelector, languageId: string)
    decreases selector
  {
    match selector
    case SelectorArray(selectors) =>
      exists k :: 0 <= k < |selectors| && MatchLanguage(selectors[k], languageId)
    case DocumentFilter(language, _, _) =>
      !Truthy(language) || language.value == languageId
    case LanguageId(id) => id == languageId
    case NoSelector => false
  }

  /** A filter rejects a model when one of its set (truthy) fields disagrees
      with it: the language, the URI scheme, or the glob pattern, tested on
      the URI path by `testGlob`. */
  predicate FilterRejects(selector: LanguageSelector, model: ModelIdentifier, testGlob: (string, string) -> bool)
    requires selector.DocumentFilter?
  {
    || (Truthy(selector.language) && selector.language.value != model.languageId)
    || (Truthy(selector.scheme) && selector.scheme.value != model.scheme)
    || (Truthy(selector.pattern) && !testGlob(selector.pattern.value, model.path))
  }

  /** `matchModel`: like `matchLanguage`, but a filter also checks the
      model's URI scheme and path. */
  predicate MatchModel(selector: LanguageSelector, model: ModelIdentifier, testGlob: (string, string) -> bool)
    decreases selector
  {
    match selector
    case SelectorArray(selectors) =>
      exists k :: 0 <= k < |selectors| && MatchModel(selectors[k], model, testGlob)
    case DocumentFilter(language, scheme, pattern) =>
      if Truthy(language) && language.value != model.languageId then false
      else if Truthy(scheme) && scheme.value != model.scheme then false
      else if Truthy(pattern) && !testGlob(pattern.value, model.path) then false
      else true
    case LanguageId(id) => id == model.languageId
    case NoSelector => false
  }

  /** The one-level facts of the two matchers, stated case by case. */
  lemma MatchCases(selector: LanguageSelector, model: ModelIdentifier, testGlob: (string, string) -> bool)
    ensures selector.SelectorArray? ==>
      (MatchLanguage(selector, model.languageId) <==> SomeMatch(selector.selectors, s => MatchLanguage(s, model.languageId)))
    ensures selector.SelectorArray? ==>
      (MatchModel(selector, model, testGlob) <==> SomeMatch(selector.selectors, s => MatchModel(s, model, testGlob)))
    ensures selector.DocumentFilter? ==>
      (MatchModel(selector, model, testGlob) <==> !FilterRejects(selector, model, testGlob))
    ensures selector.DocumentFilter? && !Truthy(selector.language) ==> MatchLanguage(selector, model.languageId)
    ensures selector.LanguageId? ==>
      (MatchLanguage(selector, model.languageId) <==> selector.id == model.languageId) &&
      (MatchModel(selector, model, testGlob) <==> selector.id == model.languageId)
  {
    if selector.SelectorArray? {
      var p := s => MatchLanguage(s, model.languageId);
      var q := s => MatchModel(s, model, testGlob);
      if MatchLanguage(selector, model.languageId) {
        var k :| 0 <= k < |selector.selectors| && MatchLanguage(selector.selectors[k], model.languageId);
        assert p(selector.selectors[k]);
      }
      if MatchModel(selector, model, testGlob) {
        var k :| 0 <= k < |selector.selectors| && MatchModel(selector.selectors[k], model, testGlob);
        assert q(selector.selectors[k]);
      }
    }
  }

  /** Matching a model is stricter than matching its language: whatever
      selects a model also selects the model's language. */
  lemma {:induction false} MatchModelImpliesMatchLanguage(selector: LanguageSelector, model: ModelIdentifier,
                                                          testGlob: (string, string) -> bool)
    requires MatchModel(selector, model, testGlob)
    ensures MatchLanguage(selector, model.languageId)
    decreases selector
  {
    match selector
    case SelectorArray(selectors) =>
      var k :| 0 <= k < |selectors| && MatchModel(selectors[k], model, testGlob);
      MatchModelImpliesMatchLanguage(selectors[k], model, testGlob);
    case DocumentFilter(_, _, _) =>
    case LanguageId(_) =>
  }

  /** A filter that sets only a language selects a model exactly when it
      selects the model's language. */
  lemma LanguageOnlyFilter(language: string, model: ModelIdentifier, testGlob: (string, string) -> bool)
    ensures MatchModel(DocumentFilter(Some(language), None, None), model, testGlob)
        <==> MatchLanguage(DocumentFilter(Some(language), None, None), model.languageId)
  {
  }

  // ---------------------------------------------------------------------------
  // Completion kinds and snippet formats

  /** `asSuggestionType`: each of the 25 protocol completion kinds gets the
      editor's name for it; an absent or unknown kind becomes 'method'. */
  function AsSuggestionType(kind: Option<int>): (r: string)
    ensures r != ""
  {
    if kind.None? then "method"
    else
      match kind.value
      case 1 => "text"
      case 2 => "method"
      case 3 => "function"
      case 4 => "constructor"
      case 5 => "field"
      case 6 => "variable"
      case 7 => "class"
      case 8 => "interface"
      case 9 => "module"
      case 10 => "property"
      case 11 => "unit"
      case 12 => "value"
      case 13 => "enum"
      case 14 => "keyword"
      case 15 => "snippet"
      case 16 => "color"
      case 17 => "file"
      case 18 => "reference"
      case 19 => "folder"
      case 20 => "enum-member"
      case 21 => "constant"
      case 22 => "struct"
      case 23 => "event"
      case 24 => "operator"
      case 25 => "type-parameter"
      case _ => "method"
  }

  /** The editor's suggestion type names back to protocol kinds. */
  function SuggestionTypeKind(name: string): (k: Option<int>)
    ensures k.Some? ==> 1 <= k.value <= 25
  {
    match name
    case "text" => Some(1)
    case "method" => Some(2)
    case "function" => Some(3)
    case "constructor" => Some(4)
    case "field" => Some(5)
    case "variable" => Some(6)
    case "class" => Some(7)
    case "interface" => Some(8)
    case "module" => Some(9)
    case "property" => Some(10)
    case "unit" => Some(11)
    case "value" => Some(12)
    case "enum" => Some(13)
    case "keyword" => Some(14)
    case "snippet" => Some(15)
    case "color" => Some(16)
    case "file" => Some(17)
    case "reference" => Some(18)
    case "folder" => Some(19)
    case "enum-member" => Some(20)
    case "constant" => Some(21)
    case "struct" => Some(22)
    case "event" => Some(23)
    case "operator" => Some(24)
    case "type-parameter" => Some(25)
    case _ => None
  }

  /** The 25 kinds get 25 different names (so no two kinds are confused), and
      only kinds outside the protocol's range fall back to 'method'. */
  lemma SuggestionTypeRoundTrip(k: int)
    ensures 1 <= k <= 25 ==> SuggestionTypeKind(AsSuggestionType(Some(k))) == Some(k)
    ensures !(1 <= k <= 25) ==> AsSuggestionType(Some(k)) == "method"
    ensures AsSuggestionType(None) == "method"
    ensures SuggestionTypeKind(AsSuggestionType(Some(k))).Some?
  {
  }

  /** Every kind of the plugin API reaches the editor under its own name, and
      a plugin item without a kind shows as a property. */
  lemma PluginKindsReachEditor(k: int)
    ensures 0 <= k <= 24 ==> SuggestionTypeKind(AsSuggestionType(Some(FromCompletionItemKind(Some(k))))) == Some(k + 1)
    ensures AsSuggestionType(Some(FromCompletionItemKind(None))) == "property"
  {
    SuggestionTypeRoundTrip(FromCompletionItemKind(Some(k)));
  }

  datatype SnippetType = Internal | Textmate

  /** `asSnippetType`: no (or a zero) format gives `undefined`, plain text
      'internal', and any other format 'textmate'. */
  function AsSnippetType(format: Option<int>): (r: Option<SnippetType>)
    ensures r.None? <==> format.None? || format.value == 0
    ensures r == Some(Internal) <==> format == Some(PlainTextFormat)
    ensures format == Some(SnippetFormat) ==> r == Some(Textmate)
  {
    if format.None? || format.value == 0 then None
    else if format.value == PlainTextFormat then Some(Internal)
    else Some(Textmate)
  }

  // ---------------------------------------------------------------------------
  // Suggestions

  /** An editor suggestion. The additional edits and the command go through
      the protocol-to-editor converter, which is not part of this model; the
      edits are carried as they are. */
  datatype Suggestion = Suggestion(
    labelText: string,
    suggestionType: string,
    detail: Option<string>,
    documentation: Option<MarkupContent>,
    filterText: Option<string>,
    sortText: Option<string>,
    preselect: Option<bool>,
    commitCharacters: Option<seq<string>>,
    additionalTextEdits: Option<seq<LspTextEdit>>,
    snippetType: Option<SnippetType>,
    wrapped: LspPosition,
    insertText: string,
    overwriteBefore: Option<int>,
    overwriteAfter: Option<int>)

  /** `asSuggestion`: with a text edit, the suggestion inserts the edit's text
      and overwrites from the edit's start column up to the cursor and from
      the cursor up to the edit's end column; without one it inserts the
      item's insert text, or nothing when that is absent or empty. */
  function AsSuggestion(item: LspCompletionItem, position: LspPosition): (r: Suggestion)
    ensures r.labelText == item.labelText && r.wrapped == position
    ensures r.suggestionType == AsSuggestionType(item.kind)
    ensures r.snippetType == AsSnippetType(item.insertTextFormat)
    ensures item.textEdit.Some? ==>
      && r.insertText == item.textEdit.value.newText
      && r.overwriteBefore == Some(position.character - item.textEdit.value.range.start.character)
      && r.overwriteAfter == Some(item.textEdit.value.range.end.character - position.character)
    ensures item.textEdit.None? ==>
      && r.overwriteBefore.None? && r.overwriteAfter.None?
      && (Truthy(item.insertText) ==> r.insertText == item.insertText.value)
      && (!Truthy(item.insertText) ==> r.insertText == "")
  {
    var base := Suggestion(
      item.labelText, AsSuggestionType(item.kind), item.detail, item.documentation,
      item.filterText, item.sortText, item.preselect, item.commitCharacters,
      item.additionalTextEdits, AsSnippetType(item.insertTextFormat), position, "", None, None);
    if item.textEdit.Some? then
      base.(insertText := item.textEdit.value.newText,
            overwriteBefore := Some(position.character - item.textEdit.value.range.start.character),
            overwriteAfter := Some(item.textEdit.value.range.end.character - position.character))
    else
      base.(insertText := if Truthy(item.insertText) then item.insertText.value else "")
  }

  /** The two sides together: an item the plugin gives without a range of its
      own replaces the word before the cursor, so the editor overwrites
      exactly the word's characters before the cursor and nothing after it;
      the editor inserts the item's insert text (or its label), as a snippet
      exactly when the plugin gave a snippet. */
  lemma {:induction false} DefaultRangeSuggestion(item: CompletionItem, position: LspPosition, wordRange: Option<Range>)
    requires item.range.None?
    requires ConvertCompletionItem(item, ToPosition(position), WordRangeBefore(ToPosition(position), wordRange)).Some?
    ensures var lsp := ConvertCompletionItem(item, ToPosition(position), WordRangeBefore(ToPosition(position), wordRange)).value;
      && AsSuggestion(lsp, position).overwriteAfter == Some(0)
      && AsSuggestion(lsp, position).overwriteBefore
         == Some(position.character - WordRangeBefore(ToPosition(position), wordRange).start.character)
      && (item.insertText.PlainInsert? ==> AsSuggestion(lsp, position).insertText == item.insertText.text)
      && (item.insertText.NoInsertText? ==> AsSuggestion(lsp, position).insertText == item.labelText.value)
      && (item.insertText.SnippetInsert? <==> AsSuggestion(lsp, position).snippetType == Some(Textmate))
  {
    var pos := ToPosition(position);
    var defaultRange := WordRangeBefore(pos, wordRange);
    var r := ConvertCompletionItem(item, pos, defaultRange);
    ConvertedItemFields(item, pos, defaultRange, r);
    assert FromRange(Some(defaultRange)).value.end == position;
  }

  /** With a word range that starts on an earlier column of the cursor's
      line, the editor overwrites a positive number of characters. */
  lemma WordBeforeCursorOverwritten(item: CompletionItem, position: LspPosition, word: Range)
    requires item.range.None? && Truthy(item.labelText)
    requires word.start.line == position.line && word.start.character < position.character
    ensures ConvertCompletionItem(item, ToPosition(position), WordRangeBefore(ToPosition(position), Some(word))).Some?
    ensures AsSuggestion(ConvertCompletionItem(item, ToPosition(position), WordRangeBefore(ToPosition(position), Some(word))).value,
                         position).overwriteBefore.value > 0
  {
    DefaultRangeSuggestion(item, position, Some(word));
  }

  // ---------------------------------------------------------------------------
  // Language configurations

  datatype SerializedRegExp = SerializedRegExp(pattern: string, flags: string)
  /** A revived regular expression keeps the serialized source and flags. */
  datatype RegExp = RegExp(source: string, flags: string)

  datatype SerializedIndentationRule = SerializedIndentationRule(
    increaseIndentPattern: Option<SerializedRegExp>,
    decreaseIndentPattern: Option<SerializedRegExp>,
    indentNextLinePattern: Option<SerializedRegExp>,
    unIndentedLinePattern: Option<SerializedRegExp>)
  datatype IndentationRule = IndentationRule(
    increaseIndentPattern: Option<RegExp>,
    decreaseIndentPattern: Option<RegExp>,
    indentNextLinePattern: Option<RegExp>,
    unIndentedLinePattern: Option<RegExp>)

  /** What to do on Enter; carried through unchanged. */
  datatype EnterAction = EnterAction(indentAction: int, appendText: Option<string>, removeText: Option<int>)

  datatype SerializedOnEnterRule = SerializedOnEnterRule(
    beforeText: Option<SerializedRegExp>, afterText: Option<SerializedRegExp>, action: EnterAction)
  datatype OnEnterRule = OnEnterRule(beforeText: Option<RegExp>, afterText: Option<RegExp>, action: EnterAction)

  datatype CommentRule = CommentRule(lineComment: Option<string>, blockComment: Option<(string, string)>)

  datatype SerializedLanguageConfiguration = SerializedLanguageConfiguration(
    comments: Option<CommentRule>,
    brackets: Option<seq<(string, string)>>,
    wordPattern: Option<SerializedRegExp>,
    indentationRules: Option<SerializedIndentationRule>,
    onEnterRules: Option<seq<SerializedOnEnterRule>>)
  datatype LanguageConfiguration = LanguageConfiguration(
    comments: Option<CommentRule>,
    brackets: Option<seq<(string, string)>>,
    wordPattern: Option<RegExp>,
    indentationRules: Option<IndentationRule>,
    onEnterRules: Option<seq<OnEnterRule>>)

  /** `undefined` and `null` give `undefined`; otherwise a regular expression
      with the same pattern and flags. */
  function ReviveRegExp(regExp: Option<SerializedRegExp>): (r: Option<RegExp>)
    ensures r.None? <==> regExp.None?
    ensures r.Some? ==> r.value.source == regExp.value.pattern && r.value.flags == regExp.value.flags
  {
    match regExp
    case None => None
    case Some(e) => Some(RegExp(e.pattern, e.flags))
  }

  /** Reading the revived expression back as a serialized one gives the input. */
  function SerializeRegExp(regExp: Option<RegExp>): Option<SerializedRegExp> {
    match regExp
    case None => None
    case Some(e) => Some(SerializedRegExp(e.source, e.flags))
  }

  lemma ReviveRegExpRoundTrip(regExp: Option<SerializedRegExp>)
    ensures SerializeRegExp(ReviveRegExp(regExp)) == regExp
  {
  }

  function ReviveIndentationRule(rule: Option<SerializedIndentationRule>): (r: Option<IndentationRule>)
    ensures r.None? <==> rule.None?
    ensures r.Some? ==>
      && r.value.increaseIndentPattern == ReviveRegExp(rule.value.increaseIndentPattern)
      && r.value.decreaseIndentPattern == ReviveRegExp(rule.value.decreaseIndentPattern)
      && r.value.indentNextLinePattern == ReviveRegExp(rule.value.indentNextLinePattern)
      && r.value.unIndentedLinePattern == ReviveRegExp(rule.value.unIndentedLinePattern)
  {
    match rule
    case None => None
    case Some(ir) => Some(IndentationRule(
      ReviveRegExp(ir.increaseIndentPattern), ReviveRegExp(ir.decreaseIndentPattern),
      ReviveRegExp(ir.indentNextLinePattern), ReviveRegExp(ir.unIndentedLinePattern)))
  }

  function ReviveOnEnterRule(rule: SerializedOnEnterRule): (r: OnEnterRule)
    ensures r.beforeText == ReviveRegExp(rule.beforeText) && r.afterText == ReviveRegExp(rule.afterText)
    ensures r.action == rule.action
  {
    OnEnterRule(ReviveRegExp(rule.beforeText), ReviveRegExp(rule.afterText), rule.action)
  }

  /** `undefined` and `null` give `undefined`; otherwise each rule is revived,
      in order. */
  function ReviveOnEnterRules(rules: Option<seq<SerializedOnEnterRule>>): (r: Option<seq<OnEnterRule>>)
    ensures r.None? <==> rules.None?
    ensures r.Some? ==> |r.value| == |rules.value|
    ensures r.Some? ==> forall k :: 0 <= k < |rules.value| ==> r.value[k] == ReviveOnEnterRule(rules.value[k])
  {
    match rules
    case None => None
    case Some(rs) => Some(seq(|rs|, k requires 0 <= k < |rs| => ReviveOnEnterRule(rs[k])))
  }

  /** The configuration handed to the editor by `$setLanguageConfiguration`:
      comments and brackets as they are, everything else revived. */
  function ReviveConfiguration(configuration: SerializedLanguageConfiguration): (r: LanguageConfiguration)
    ensures r.comments == configuration.comments && r.brackets == configuration.brackets
    ensures r.wordPattern == ReviveRegExp(configuration.wordPattern)
    ensures r.indentationRules == ReviveIndentationRule(configuration.indentationRules)
    ensures r.onEnterRules == ReviveOnEnterRules(configuration.onEnterRules)
  {
    LanguageConfiguration(
      configuration.comments, configuration.brackets, ReviveRegExp(configuration.wordPattern),
      ReviveIndentationRule(configuration.indentationRules), ReviveOnEnterRules(configuration.onEnterRules))
  }

  // ---------------------------------------------------------------------------
  // Registrations by handle

  /** A registration made with the editor, identified by a number; disposing
      it is the editor's business, recorded here in `disposed`. */
  type Registration = int

  class LanguagesMainState {
    var disposables: map<int, Registration>
    /** The registrations disposed so far, in order. */
    var disposed: seq<Registration>
    /** The configurations handed to the editor, in order, with their languages. */
    var configurations: seq<(string, LanguageConfiguration)>

    constructor()
      ensures disposables == map[] && disposed == [] && configurations == []
    {
      disposables := map[];
      disposed := [];
      configurations := [];
    }

    /** `$unregister`: disposes and forgets the registration under `handle`,
        if there is one; other handles keep theirs. */
    method Unregister(handle: int)
      modifies this
      ensures handle in old(disposables) ==> disposed == old(disposed) + [old(disposables)[handle]]
      ensures handle !in old(disposables) ==> disposed == old(disposed)
      ensures disposables == old(disposables) - {handle}
      ensures configurations == old(configurations)
    {
      if handle in disposables {
        disposed := disposed + [disposables[handle]];
        disposables := disposables - {handle};
      }
    }

    /** `$setLanguageConfiguration`: hands the revived configuration to the
        editor and keeps the resulting `registration` under `handle`. A
        registration already kept under that handle is replaced without being
        disposed. */
    method SetLanguageConfiguration(handle: int, languageId: string, configuration: SerializedLanguageConfiguration,
                                    registration: Registration)
      modifies this
      ensures configurations == old(configurations) + [(languageId, ReviveConfiguration(configuration))]
      ensures disposables == old(disposables)[handle := registration]
      ensures disposed == old(disposed)
    {
      configurations := configurations + [(languageId, ReviveConfiguration(configuration))];
      disposables := disposables[handle := registration];
    }
  }
}
