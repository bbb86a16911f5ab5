/** Converters between values of the plugin API and values of the Language
    Server Protocol (LSP): positions and ranges, view columns, markdown, the
    completion-item and symbol kind enumerations, file changes, shell and
    process task executions and the commands the plugin host knows how to
    forward. */
module TypeConverters {
  import opened Wrappers
  import opened Sequences

  // ---------------------------------------------------------------------------
  // Positions and ranges

  /** A position of the plugin API: zero-based line and character. */
  datatype Position = Position(line: int, character: int)

  /** A range of the plugin API. */
  datatype Range = Range(start: Position, end: Position) {
    predicate IsSingleLine() {
      start.line == end.line
    }
  }

  /** A position of the protocol (`{ line, character }`). */
  datatype LspPosition = LspPosition(line: int, character: int)

  /** A range of the protocol. */
  datatype LspRange = LspRange(start: LspPosition, end: LspPosition)

  /** A text edit of the plugin API and of the protocol. */
  datatype TextEdit = TextEdit(range: Range, newText: string)
  datatype LspTextEdit = LspTextEdit(range: LspRange, newText: string)

  function ToPosition(position: LspPosition): (r: Position)
    ensures r.line == position.line && r.character == position.character
  {
    Position(position.line, position.character)
  }

  function FromPosition(position: Position): (r: LspPosition)
    ensures ToPosition(r) == position
  {
    LspPosition(position.line, position.character)
  }

  function ToRange(range: LspRange): (r: Range)
    ensures r.start == ToPosition(range.start) && r.end == ToPosition(range.end)
  {
    Range(ToPosition(range.start), ToPosition(range.end))
  }

  /** `undefined` stays `undefined`; a range keeps its four coordinates. */
  function FromRange(range: Option<Range>): (r: Option<LspRange>)
    ensures r.None? <==> range.None?
    ensures r.Some? ==> ToRange(r.value) == range.value
  {
    match range
    case None => None
    case Some(rg) => Some(LspRange(FromPosition(rg.start), FromPosition(rg.end)))
  }

  /** Converting to the protocol and back, or back and forth, loses nothing. */
  lemma PositionRangeRoundTrip(p: Position, q: LspPosition, r: Range, s: LspRange)
    ensures ToPosition(FromPosition(p)) == p
    ensures FromPosition(ToPosition(q)) == q
    ensures FromRange(Some(r)).value == LspRange(FromPosition(r.start), FromPosition(r.end))
    ensures ToRange(FromRange(Some(r)).value) == r
    ensures FromRange(Some(ToRange(s))) == Some(s)
  {
  }

  function FromTextEdit(edit: TextEdit): (r: LspTextEdit)
    ensures r.newText == edit.newText
    ensures ToRange(r.range) == edit.range
  {
    LspTextEdit(FromRange(Some(edit.range)).value, edit.newText)
  }

  // ---------------------------------------------------------------------------
  // View columns

  /** `ViewColumn.One` and `ViewColumn.Beside` of the plugin API. */
  const ViewColumnOne := 1
  const ViewColumnBeside := -2
  /** The editor-group indices the main side understands besides 0, 1, ... */
  const SideGroup := -2
  const ActiveGroup := -1

  /** A view column from `One` upwards becomes the zero-based group index;
      `Beside` becomes the side group and anything else the active group. */
  function FromViewColumn(column: Option<int>): (group: int)
    ensures column.Some? && column.value >= ViewColumnOne ==> group == column.value - 1
    ensures column == Some(ViewColumnBeside) ==> group == SideGroup
    ensures group >= 0 <==> column.Some? && column.value >= ViewColumnOne
    ensures group < 0 ==> group == SideGroup || group == ActiveGroup
    ensures group == SideGroup <==> column == Some(ViewColumnBeside)
  {
    if column.Some? && column.value >= ViewColumnOne then column.value - 1
    else if column == Some(ViewColumnBeside) then SideGroup
    else ActiveGroup
  }

  // ---------------------------------------------------------------------------
  // Markdown

  /** The shapes a `MarkedString` can take at run time: a plain string, an
      object with string `language` and `value` (a code block), a
      `MarkdownString`, or anything else. */
  datatype MarkedString =
    | PlainString(text: string)
    | CodeBlock(language: string, value: string)
    | MarkdownString(value: string)
    | Unrecognised

  datatype MarkupKind = PlainText | Markdown

  datatype MarkupContent = MarkupContent(kind: MarkupKind, value: string)

  const Fence := "```"

  /** A code block becomes a fenced Markdown block, a `MarkdownString` keeps its
      Markdown text, a plain string stays plain text and anything else becomes
      empty plain text. */
  function FromMarkdown(markup: MarkedString): (r: MarkupContent)
    ensures r.kind == Markdown <==> markup.CodeBlock? || markup.MarkdownString?
    ensures markup.CodeBlock? ==>
      r.value == Fence + markup.language + "\n" + markup.value + "\n" + Fence + "\n"
    ensures markup.MarkdownString? ==> r.value == markup.value
    ensures markup.PlainString? ==> r.value == markup.text
    ensures markup.Unrecognised? ==> r.value == ""
  {
    match markup
    case CodeBlock(language, value) =>
      MarkupContent(Markdown, Fence + language + "\n" + value + "\n" + Fence + "\n")
    case MarkdownString(value) => MarkupContent(Markdown, value)
    case PlainString(text) => MarkupContent(PlainText, text)
    case Unrecognised => MarkupContent(PlainText, "")
  }

  /** Reads a fenced code block back: the language is the text up to the first
      line break after the opening fence. */
  function ParseCodeBlock(s: string): (r: Option<(string, string)>)
  {
    if |s| < 9 || s[..3] != Fence || s[|s| - 5..] != "\n" + Fence + "\n" then None
    else
      var body := s[3..|s| - 5];
      var i := IndexOf(body, '\n');
      if i < 0 then None else Some((body[..i], body[i + 1..]))
  }

  /** The fenced block a code block turns into determines the code block again,
      as long as its language holds no line break. */
  lemma {:induction false} CodeBlockRoundTrip(language: string, value: string)
    requires '\n' !in language
    ensures ParseCodeBlock(FromMarkdown(CodeBlock(language, value)).value) == Some((language, value))
  {
    var closing := "\n" + Fence + "\n";
    var body := language + "\n" + value;
    var s := Fence + body + closing;
    assert FromMarkdown(CodeBlock(language, value)).value == s;
    assert |s| == 3 + |body| + 5;
    assert s[..3] == Fence;
    assert s[|s| - 5..] == closing;
    assert s[3..|s| - 5] == body;
    IndexOfFirst(language, '\n', value);
    assert body[..|language|] == language;
    assert body[|language| + 1..] == value;
  }

  /** The Markdown values of all blocks, concatenated in order. */
  function ConcatMarkdown(markup: seq<MarkedString>): (r: string)
    ensures |markup| == 1 ==> r == FromMarkdown(markup[0]).value
  {
    if markup == [] then ""
    else ConcatMarkdown(markup[..|markup| - 1]) + FromMarkdown(markup[|markup| - 1]).value
  }

  /** Concatenates the converted blocks into one Markdown content. */
  method FromManyMarkdown(markup: seq<MarkedString>) returns (r: MarkupContent)
    ensures r.kind == Markdown
    ensures r.value == ConcatMarkdown(markup)
  {
    var combined := "";
    for i := 0 to |markup|
      invariant combined == ConcatMarkdown(markup[..i])
    {
      assert markup[..i + 1][..i] == markup[..i];
      combined := combined + FromMarkdown(markup[i]).value;
    }
    assert markup[..|markup|] == markup;
    r := MarkupContent(Markdown, combined);
  }

  // ---------------------------------------------------------------------------
  // Completion item kinds: the plugin API numbers them from 0 (Text) to 24
  // (TypeParameter), the protocol from 1 (Text) to 25 (TypeParameter).

  /** The protocol's `CompletionItemKind.Property` and the plugin API's. */
  const LspCompletionProperty := 10
  const CompletionProperty := 9

  /** Each of the 25 kinds maps to the protocol kind of the same name; an
      absent or unknown kind maps to `Property`. */
  function FromCompletionItemKind(kind: Option<int>): (r: int)
    ensures kind.Some? && 0 <= kind.value <= 24 ==> r == kind.value + 1
    ensures !(kind.Some? && 0 <= kind.value <= 24) ==> r == LspCompletionProperty
    ensures 1 <= r <= 25
  {
    if kind.None? then LspCompletionProperty
    else
      match kind.value
      case 1 => 2    // Method
      case 2 => 3    // Function
      case 3 => 4    // Constructor
      case 4 => 5    // Field
      case 5 => 6    // Variable
      case 6 => 7    // Class
      case 7 => 8    // Interface
      case 21 => 22  // Struct
      case 8 => 9    // Module
      case 9 => 10   // Property
      case 10 => 11  // Unit
      case 11 => 12  // Value
      case 20 => 21  // Constant
      case 12 => 13  // Enum
      case 19 => 20  // EnumMember
      case 13 => 14  // Keyword
      case 14 => 15  // Snippet
      case 0 => 1    // Text
      case 15 => 16  // Color
      case 16 => 17  // File
      case 17 => 18  // Reference
      case 18 => 19  // Folder
      case 22 => 23  // Event
      case 23 => 24  // Operator
      case 24 => 25  // TypeParameter
      case _ => LspCompletionProperty
  }

  /** The inverse map; `undefined` and the falsy 0 are not looked up and give
      `Property`, as does any unknown kind. */
  function ToCompletionItemKind(kind: Option<int>): (r: int)
    ensures kind.Some? && 1 <= kind.value <= 25 ==> r == kind.value - 1
    ensures !(kind.Some? && 1 <= kind.value <= 25) ==> r == CompletionProperty
    ensures 0 <= r <= 24
  {
    if kind.None? || kind.value == 0 then CompletionProperty
    else
      match kind.value
      case 2 => 1    // Method
      case 3 => 2    // Function
      case 4 => 3    // Constructor
      case 5 => 4    // Field
      case 6 => 5    // Variable
      case 7 => 6    // Class
      case 8 => 7    // Interface
      case 22 => 21  // Struct
      case 9 => 8    // Module
      case 10 => 9   // Property
      case 11 => 10  // Unit
      case 12 => 11  // Value
      case 21 => 20  // Constant
      case 13 => 12  // Enum
      case 20 => 19  // EnumMember
      case 14 => 13  // Keyword
      case 15 => 14  // Snippet
      case 1 => 0    // Text
      case 16 => 15  // Color
      case 17 => 16  // File
      case 18 => 17  // Reference
      case 19 => 18  // Folder
      case 23 => 22  // Event
      case 24 => 23  // Operator
      case 25 => 24  // TypeParameter
      case _ => CompletionProperty
  }

  /** The two maps are inverse bijections between the 25 kinds of each side,
      and both send what they do not know to `Property`. */
  lemma CompletionItemKindRoundTrip(k: int)
    ensures 0 <= k <= 24 ==> ToCompletionItemKind(Some(FromCompletionItemKind(Some(k)))) == k
    ensures 1 <= k <= 25 ==> FromCompletionItemKind(Some(ToCompletionItemKind(Some(k)))) == k
    ensures FromCompletionItemKind(None) == LspCompletionProperty
    ensures ToCompletionItemKind(None) == CompletionProperty
    ensures ToCompletionItemKind(Some(LspCompletionProperty)) == CompletionProperty
  {
  }

  // ---------------------------------------------------------------------------
  // Symbol kinds: the plugin API numbers them from 0 (File) to 25
  // (TypeParameter), the protocol from 1 (File) to 26 (TypeParameter).

  const LspSymbolProperty := 7
  const SymbolProperty := 6

  /** The name-by-name table from plugin kinds to protocol kinds. */
  const SymbolKindMapping: map<int, int> := map[
    0 := 1,     // File
    1 := 2,     // Module
    2 := 3,     // Namespace
    3 := 4,     // Package
    4 := 5,     // Class
    5 := 6,     // Method
    6 := 7,     // Property
    7 := 8,     // Field
    8 := 9,     // Constructor
    9 := 10,    // Enum
    10 := 11,   // Interface
    11 := 12,   // Function
    12 := 13,   // Variable
    13 := 14,   // Constant
    14 := 15,   // String
    15 := 16,   // Number
    16 := 17,   // Boolean
    17 := 18,   // Array
    18 := 19,   // Object
    19 := 20,   // Key
    20 := 21,   // Null
    21 := 22,   // EnumMember
    22 := 23,   // Struct
    23 := 24,   // Event
    24 := 25,   // Operator
    25 := 26    // TypeParameter
  ]

  /** The table maps each of the 26 plugin kinds to the next number. */
  lemma SymbolKindMappingShape()
    ensures forall k :: k in SymbolKindMapping <==> 0 <= k <= 25
    ensures forall k :: k in SymbolKindMapping ==> SymbolKindMapping[k] == k + 1
  {
    forall k | k in SymbolKindMapping ensures 0 <= k <= 25 && SymbolKindMapping[k] == k + 1 {
    }
  }

  /** A kind in the table maps to its protocol kind; any other kind, or one
      mapped to the falsy 0, gives `Property`. */
  function FromSymbolKind(kind: int): (r: int)
    ensures 0 <= kind <= 25 ==> r == kind + 1
    ensures !(0 <= kind <= 25) ==> r == LspSymbolProperty
    ensures 1 <= r <= 26
  {
    SymbolKindMappingShape();
    if kind in SymbolKindMapping && SymbolKindMapping[kind] != 0 then SymbolKindMapping[kind]
    else LspSymbolProperty
  }

  /** Visits the table's keys in ascending order (the order a `for ... in` loop
      visits integer keys) and returns the first whose protocol kind is `kind`;
      `Property` when there is none. */
  method ToSymbolKind(kind: int) returns (r: int)
    ensures 1 <= kind <= 26 ==> r == kind - 1
    ensures !(1 <= kind <= 26) ==> r == SymbolProperty
    ensures 1 <= kind <= 26 ==> FromSymbolKind(r) == kind
    ensures forall k :: 0 <= k <= 25 && FromSymbolKind(k) == kind ==> r == k
  {
    SymbolKindMappingShape();
    var k := 0;
    while k <= 25
      invariant 0 <= k <= 26
      invariant !(1 <= kind <= k)
    {
      if SymbolKindMapping[k] == kind {
        return k;
      }
      k := k + 1;
    }
    return SymbolProperty;
  }

  /** A document symbol of the plugin API. */
  datatype DocumentSymbol = DocumentSymbol(
    name: string, detail: string, kind: int,
    range: Range, selectionRange: Range, children: seq<DocumentSymbol>)

  /** A document symbol of the protocol. */
  datatype LspDocumentSymbol = LspDocumentSymbol(
    name: string, detail: string, kind: int, containerName: Option<string>,
    range: LspRange, selectionRange: LspRange, children: seq<LspDocumentSymbol>)

  /** Converts a symbol and, recursively, its children. */
  function FromDocumentSymbol(info: DocumentSymbol): (r: LspDocumentSymbol)
    ensures r.name == info.name && r.detail == info.detail
    ensures r.kind == FromSymbolKind(info.kind)
    ensures ToRange(r.range) == info.range && ToRange(r.selectionRange) == info.selectionRange
    ensures |r.children| == |info.children|
    ensures forall i :: 0 <= i < |r.children| ==> r.children[i] == FromDocumentSymbol(info.children[i])
  {
    LspDocumentSymbol(
      info.name, info.detail, FromSymbolKind(info.kind), None,
      FromRange(Some(info.range)).value, FromRange(Some(info.selectionRange)).value,
      seq(|info.children|, i requires 0 <= i < |info.children| => FromDocumentSymbol(info.children[i])))
  }

  /** The names of a plugin symbol tree in preorder. */
  function Names(s: DocumentSymbol): seq<string>
    decreases s, 1
  {
    [s.name] + NamesOf(s.children)
  }

  function NamesOf(cs: seq<DocumentSymbol>): seq<string>
    decreases cs, 0
  {
    if cs == [] then [] else Names(cs[0]) + NamesOf(cs[1..])
  }

  /** The names of a protocol symbol tree in preorder. */
  function LspNames(s: LspDocumentSymbol): seq<string>
    decreases s, 1
  {
    [s.name] + LspNamesOf(s.children)
  }

  function LspNamesOf(cs: seq<LspDocumentSymbol>): seq<string>
    decreases cs, 0
  {
    if cs == [] then [] else LspNames(cs[0]) + LspNamesOf(cs[1..])
  }

  /** The conversion keeps every symbol of the tree, in the same place. */
  lemma {:induction false} FromDocumentSymbolKeepsSymbols(info: DocumentSymbol)
    ensures LspNames(FromDocumentSymbol(info)) == Names(info)
    decreases info, 1
  {
    FromDocumentSymbolsKeepSymbols(info.children, FromDocumentSymbol(info).children);
  }

  lemma {:induction false} FromDocumentSymbolsKeepSymbols(cs: seq<DocumentSymbol>, rs: seq<LspDocumentSymbol>)
    requires |rs| == |cs|
    requires forall i :: 0 <= i < |cs| ==> rs[i] == FromDocumentSymbol(cs[i])
    ensures LspNamesOf(rs) == NamesOf(cs)
    decreases cs, 0
  {
    if cs != [] {
      FromDocumentSymbolKeepsSymbols(cs[0]);
      FromDocumentSymbolsKeepSymbols(cs[1..], rs[1..]);
    }
  }

  // ---------------------------------------------------------------------------
  // File changes of a workspace edit

  datatype FileChange =
    | RenameFile(oldUri: string, newUri: string)
    | DeleteFile(uri: string)
    | CreateFile(uri: string)

  /** The old URI a change refers to, or the empty string. */
  function OldUriOf(c: FileChange): string {
    match c
    case RenameFile(o, _) => o
    case DeleteFile(u) => u
    case CreateFile(_) => ""
  }

  /** The new URI a change refers to, or the empty string. */
  function NewUriOf(c: FileChange): string {
    match c
    case RenameFile(_, n) => n
    case DeleteFile(_) => ""
    case CreateFile(u) => u
  }

  /** Both URIs give a rename, only the old one a delete, only the new one a
      create; with neither there is no change. (An empty URI is falsy.) */
  function CreateFileChange(oldUri: string, newUri: string): (r: Option<FileChange>)
    ensures r.None? <==> oldUri == "" && newUri == ""
    ensures r.Some? ==> OldUriOf(r.value) == oldUri && NewUriOf(r.value) == newUri
    ensures r.Some? && r.value.RenameFile? <==> oldUri != "" && newUri != ""
  {
    if oldUri != "" && newUri != "" then Some(RenameFile(oldUri, newUri))
    else if oldUri != "" then Some(DeleteFile(oldUri))
    else if newUri != "" then Some(CreateFile(newUri))
    else None
  }

  // ---------------------------------------------------------------------------
  // Splitting a command line on spaces (`String.prototype.split(' ')`)

  /** Joins the parts with `sep` between consecutive parts. */
  function Join(parts: seq<string>, sep: char): string
    requires |parts| >= 1
  {
    if |parts| == 1 then parts[0] else parts[0] + [sep] + Join(parts[1..], sep)
  }

  /** `s.split(sep)`: the maximal pieces between separators, empty pieces
      included; joining them again gives `s`. */
  function Split(s: string, sep: char): (parts: seq<string>)
    ensures |parts| >= 1
    ensures forall i :: 0 <= i < |parts| ==> sep !in parts[i]
    ensures Join(parts, sep) == s
    decreases |s|
  {
    var i := IndexOf(s, sep);
    if i < 0 then [s]
    else
      var rest := Split(s[i + 1..], sep);
      assert s == s[..i] + [sep] + s[i + 1..];
      assert ([s[..i]] + rest)[1..] == rest;
      [s[..i]] + rest
  }

  // ---------------------------------------------------------------------------
  // Shell and process executions

  datatype ShellQuoting = Escape | Strong | Weak

  /** An argument of a shell execution: a string or a quoted string. */
  datatype ShellArg = PlainArg(text: string) | QuotedArg(value: string, quoting: ShellQuoting)

  /** An element of the array `getShellArgs` returns, as JavaScript sees it. */
  datatype ArgValue = Str(s: string) | QuotedObject(value: string, quoting: ShellQuoting) | Undefined

  function AsArgValue(a: ShellArg): ArgValue {
    match a
    case PlainArg(t) => Str(t)
    case QuotedArg(v, q) => QuotedObject(v, q)
  }

  /** `arg.value` read from every argument: a plain string has no `value`. */
  function ValueField(a: ShellArg): ArgValue {
    match a
    case PlainArg(_) => Undefined
    case QuotedArg(v, _) => Str(v)
  }

  /** What `getShellArgs` returns as written: nothing for an absent or empty
      list; the list itself when its first element is a string; otherwise
      the `value` of every element. */
  function ShellArgValues(args: Option<seq<ShellArg>>): (r: seq<ArgValue>)
    ensures args.None? || args.value == [] ==> r == []
    ensures args.Some? && args.value != [] ==> |r| == |args.value|
    ensures args.Some? && args.value != [] && args.value[0].PlainArg? ==>
      forall i :: 0 <= i < |r| ==> r[i] == AsArgValue(args.value[i])
    ensures args.Some? && args.value != [] && args.value[0].QuotedArg? ==>
      forall i :: 0 <= i < |r| ==> r[i] == ValueField(args.value[i])
  {
    if args.None? || args.value == [] then []
    else if args.value[0].PlainArg? then seq(|args.value|, i requires 0 <= i < |args.value| => AsArgValue(args.value[i]))
    else seq(|args.value|, i requires 0 <= i < |args.value| => ValueField(args.value[i]))
  }

  /** `getShellArgs` as written: the quoted case pushes every `value` in a loop. */
  method GetShellArgs(args: Option<seq<ShellArg>>) returns (result: seq<ArgValue>)
    ensures result == ShellArgValues(args)
  {
    if args.None? || |args.value| == 0 {
      return [];
    }
    var a := args.value;
    if a[0].PlainArg? {
      return seq(|a|, i requires 0 <= i < |a| => AsArgValue(a[i]));
    }
    result := [];
    for i := 0 to |a|
      invariant result == seq(i, j requires 0 <= j < i => ValueField(a[j]))
    {
      result := result + [ValueField(a[i])];
    }
  }

  /** The text an argument stands for. */
  function ArgText(a: ShellArg): string {
    match a
    case PlainArg(t) => t
    case QuotedArg(v, _) => v
  }

  /** The argument texts in order, whatever mix of plain and quoted arguments
      the list holds (the corrected `getShellArgs`). */
  function ShellArgTexts(args: Option<seq<ShellArg>>): (r: seq<string>)
    ensures args.None? ==> r == []
    ensures args.Some? ==> |r| == |args.value| && forall i :: 0 <= i < |r| ==> r[i] == ArgText(args.value[i])
  {
    if args.None? then [] else seq(|args.value|, i requires 0 <= i < |args.value| => ArgText(args.value[i]))
  }

  /** When the arguments are all plain or all quoted, the code as written
      yields exactly the argument texts. */
  lemma {:induction false} ShellArgValuesUniform(args: seq<ShellArg>)
    requires (forall i :: 0 <= i < |args| ==> args[i].PlainArg?) || (forall i :: 0 <= i < |args| ==> args[i].QuotedArg?)
    ensures ShellArgValues(Some(args)) == seq(|args|, i requires 0 <= i < |args| => Str(ShellArgTexts(Some(args))[i]))
  {
    var texts := ShellArgTexts(Some(args));
    var r := ShellArgValues(Some(args));
    if args != [] {
      forall i | 0 <= i < |args| ensures r[i] == Str(texts[i]) {
        if args[0].PlainArg? {
          assert args[i].PlainArg?;
        } else {
          assert args[i].QuotedArg?;
        }
      }
    }
  }

  /** A mixed list starting with a quoted argument loses the plain arguments'
      text, and one starting with a plain argument passes a quoted-string
      object where a string is expected. */
  lemma MixedShellArgsMisconverted()
    ensures ShellArgValues(Some([QuotedArg("echo", Strong), PlainArg("hi")])) == [Str("echo"), Undefined]
    ensures ShellArgValues(Some([PlainArg("echo"), QuotedArg("hi", Strong)])) == [Str("echo"), QuotedObject("hi", Strong)]
    ensures ShellArgTexts(Some([QuotedArg("echo", Strong), PlainArg("hi")])) == ["echo", "hi"]
  {
  }

  /** Quoting options of a shell execution: an object, truthy whenever present. */
  datatype QuotingOptions = QuotingOptions(escape: Option<string>, strong: Option<string>, weak: Option<string>)

  datatype ShellExecutionOptions = ShellExecutionOptions(
    cwd: Option<string>, env: Option<map<string, string>>, executable: Option<string>,
    shellQuoting: Option<QuotingOptions>, shellArgs: Option<seq<string>>)

  /** The options record handed over for a shell task: only its keys that are set. */
  datatype ShellOptionsRecord = ShellOptionsRecord(
    env: Option<map<string, string>>, executable: Option<string>,
    shellQuoting: Option<QuotingOptions>, shellArgs: Option<seq<string>>)

  /** Copies the truthy options: an environment, quoting or argument list is an
      object and truthy when present; the executable only when non-empty. */
  function GetShellExecutionOptions(options: ShellExecutionOptions): (r: ShellOptionsRecord)
    ensures r.env == options.env && r.shellQuoting == options.shellQuoting && r.shellArgs == options.shellArgs
    ensures r.executable.Some? <==> Truthy(options.executable)
    ensures r.executable.Some? ==> r.executable == options.executable
  {
    ShellOptionsRecord(
      options.env,
      if Truthy(options.executable) then options.executable else None,
      options.shellQuoting,
      options.shellArgs)
  }

  datatype ProcessExecutionOptions = ProcessExecutionOptions(cwd: Option<string>, env: Option<map<string, string>>)

  datatype TaskOptions = ShellTaskOptions(shell: ShellOptionsRecord) | ProcessTaskOptions(process: ProcessExecutionOptions)

  /** The command of a shell execution: a string or a quoted string. */
  datatype ShellCommand = CommandString(s: string) | CommandQuoted(value: string, quoting: ShellQuoting)

  datatype ShellExecution = ShellExecution(
    commandLine: Option<string>, command: Option<ShellCommand>,
    args: Option<seq<ShellArg>>, options: Option<ShellExecutionOptions>)

  datatype ProcessExecution = ProcessExecution(
    process: string, args: seq<string>, options: Option<ProcessExecutionOptions>)

  /** A list of strings as argument values. */
  function Strings(ss: seq<string>): (r: seq<ArgValue>)
    ensures |r| == |ss| && forall i :: 0 <= i < |r| ==> r[i] == Str(ss[i])
  {
    seq(|ss|, i requires 0 <= i < |ss| => Str(ss[i]))
  }

  /** The task record sent to the main side, which the converters fill in place. */
  class ProcessTaskDto {
    var command: Option<string>
    var args: Option<seq<ArgValue>>
    var cwd: Option<string>
    var options: Option<TaskOptions>

    constructor (command: Option<string>)
      ensures this.command == command && args == None && cwd == None && options == None
    {
      this.command := command;
      args := None;
      cwd := None;
      options := None;
    }

    /** Fills the record from a shell execution. Options are copied first. A
        command line is split on spaces: a non-empty first token becomes the
        command, the remaining tokens the arguments. Without a command line a
        string command is taken with the argument texts; any other command is
        an error, raised after the options were already copied. */
    method FromShellExecution(execution: ShellExecution) returns (r: Result<(), string>)
      modifies this
      ensures execution.options.Some? ==>
        cwd == execution.options.value.cwd &&
        options == Some(ShellTaskOptions(GetShellExecutionOptions(execution.options.value)))
      ensures execution.options.None? ==> cwd == old(cwd) && options == old(options)
      ensures Truthy(execution.commandLine) ==>
        var tokens := Split(execution.commandLine.value, ' ');
        && r.Ok?
        && args == Some(Strings(tokens[1..]))
        && command == (if tokens[0] != "" then Some(tokens[0]) else old(command))
      ensures !Truthy(execution.commandLine) && execution.command.Some? && execution.command.value.CommandString? ==>
        && r.Ok?
        && command == Some(execution.command.value.s)
        && args == Some(ShellArgValues(execution.args))
      ensures !Truthy(execution.commandLine) && !(execution.command.Some? && execution.command.value.CommandString?) ==>
        r.Err? && command == old(command) && args == old(args)
    {
      if execution.options.Some? {
        cwd := execution.options.value.cwd;
        options := Some(ShellTaskOptions(GetShellExecutionOptions(execution.options.value)));
      }
      if Truthy(execution.commandLine) {
        var tokens := Split(execution.commandLine.value, ' ');
        var taskCommand := tokens[0];
        if taskCommand != "" {
          command := Some(taskCommand);
        }
        args := Some(Strings(tokens[1..]));
        return Ok(());
      }
      if execution.command.Some? && execution.command.value.CommandString? {
        command := Some(execution.command.value.s);
        var shellArgs := GetShellArgs(execution.args);
        args := Some(shellArgs);
        return Ok(());
      }
      return Err("Converting ShellQuotedString command is not implemented");
    }

    /** Fills the record from a process execution: the process is the command,
        its arguments are kept, and options, when given, also set the cwd. */
    method FromProcessExecution(execution: ProcessExecution)
      modifies this
      ensures command == Some(execution.process) && args == Some(Strings(execution.args))
      ensures execution.options.Some? ==>
        cwd == execution.options.value.cwd && options == Some(ProcessTaskOptions(execution.options.value))
      ensures execution.options.None? ==> cwd == old(cwd) && options == old(options)
    {
      command := Some(execution.process);
      args := Some(Strings(execution.args));
      if execution.options.Some? {
        cwd := execution.options.value.cwd;
        options := Some(ProcessTaskOptions(execution.options.value));
      }
    }
  }

  /** The command line a shell task ends up with, read back from the record:
      joining the command and the arguments with spaces gives the original
      line whenever its first token is non-empty. */
  lemma {:induction false} CommandLineRoundTrip(line: string)
    requires line != ""
    ensures var tokens := Split(line, ' ');
      tokens[0] != "" ==> Join([tokens[0]] + tokens[1..], ' ') == line
  {
    var tokens := Split(line, ' ');
    assert [tokens[0]] + tokens[1..] == tokens;
  }

  // ---------------------------------------------------------------------------
  // Commands forwarded to the main side

  /** A location of the plugin API; its URI is given by its string form. */
  datatype Location = Location(uri: string, range: Range)

  datatype LspLocation = LspLocation(uri: string, range: LspRange)

  function FromLocation(location: Location): (r: LspLocation)
    ensures r.uri == location.uri && ToRange(r.range) == location.range
  {
    LspLocation(location.uri, FromRange(Some(location.range)).value)
  }

  /** The command arguments the known conversions distinguish: `undefined` or
      `null`, plugin values (a URI, a position, a list of locations), their
      protocol forms, and any other value that is not an array. */
  datatype CommandArg =
    | UndefinedArg
    | UriArg(uri: string)
    | PositionArg(position: Position)
    | LocationsArg(locations: seq<Location>)
    | StringArg(s: string)
    | LspPositionArg(lspPosition: LspPosition)
    | LspLocationsArg(lspLocations: seq<LspLocation>)
    | OtherArg

  /** A command of the plugin API; `command` is the id, `id` its deprecated alias. */
  datatype Command = Command(
    command: Option<string>, id: Option<string>, title: Option<string>,
    alias: Option<string>, tooltip: Option<string>, arguments: Option<seq<CommandArg>>)

  /** A command of the protocol. */
  datatype LspCommand = LspCommand(
    command: Option<string>, title: string, tooltip: Option<string>, arguments: Option<seq<CommandArg>>)

  const ShowReferences := "editor.action.showReferences"
  const ShowReferencesInternal := "textEditor.commands.showReferences"

  /** Whether converting argument `index` of `editor.action.showReferences`
      goes through: `uri.toString()` and `fromPosition` throw on `undefined`
      or `null`, and `a.map` throws on anything that is not an array. */
  predicate ShowReferencesArgAccepted(index: nat, arg: CommandArg) {
    && (index <= 1 ==> !arg.UndefinedArg?)
    && (index == 2 ==> arg.LocationsArg? || arg.LspLocationsArg?)
  }

  /** The conversion applied to argument `index`, whatever its shape: the
      first through `uri.toString()`, the second through `fromPosition`, the
      third through `fromLocation` element by element. A string, a protocol
      position or protocol locations convert to themselves. */
  function ConvertShowReferencesArg(index: nat, arg: CommandArg): (r: Result<CommandArg, string>)
    ensures r.Ok? <==> ShowReferencesArgAccepted(index, arg)
  {
    if index == 0 then
      match arg
      case UndefinedArg => Err("TypeError: cannot read property 'toString' of undefined")
      case UriArg(u) => Ok(StringArg(u))
      case _ => Ok(arg)
    else if index == 1 then
      match arg
      case UndefinedArg => Err("TypeError: cannot read property 'line' of undefined")
      case PositionArg(p) => Ok(LspPositionArg(FromPosition(p)))
      case _ => Ok(arg)
    else if index == 2 then
      match arg
      case LocationsArg(ls) => Ok(LspLocationsArg(seq(|ls|, i requires 0 <= i < |ls| => FromLocation(ls[i]))))
      case LspLocationsArg(_) => Ok(arg)
      case _ => Err("TypeError: a.map is not a function")
    else Ok(arg)
  }

  /** Absent arguments stay absent. Otherwise every argument is converted in
      order, and the first one that cannot be converted throws; arguments
      from index 3 on are kept. */
  function ConvertShowReferencesArgs(args: Option<seq<CommandArg>>): (r: Result<Option<seq<CommandArg>>, string>)
    ensures r.Err? <==> args.Some? && exists i :: 0 <= i < |args.value| && !ShowReferencesArgAccepted(i, args.value[i])
    ensures r.Ok? ==> (r.value.None? <==> args.None?)
    ensures r.Ok? && r.value.Some? ==> |r.value.value| == |args.value|
    ensures r.Ok? && r.value.Some? ==> forall i :: 3 <= i < |args.value| ==> r.value.value[i] == args.value[i]
    ensures r.Ok? && r.value.Some? && |args.value| >= 3 && args.value[0].UriArg? && args.value[1].PositionArg? && args.value[2].LocationsArg? ==>
      r.value.value[0] == StringArg(args.value[0].uri) &&
      r.value.value[1] == LspPositionArg(FromPosition(args.value[1].position)) &&
      r.value.value[2].LspLocationsArg? && |r.value.value[2].lspLocations| == |args.value[2].locations| &&
      forall j :: 0 <= j < |r.value.value[2].lspLocations| ==> r.value.value[2].lspLocations[j] == FromLocation(args.value[2].locations[j])
  {
    match args
    case None => Ok(None)
    case Some(a) =>
      if |a| > 0 && ConvertShowReferencesArg(0, a[0]).Err? then Err(ConvertShowReferencesArg(0, a[0]).error)
      else if |a| > 1 && ConvertShowReferencesArg(1, a[1]).Err? then Err(ConvertShowReferencesArg(1, a[1]).error)
      else if |a| > 2 && ConvertShowReferencesArg(2, a[2]).Err? then Err(ConvertShowReferencesArg(2, a[2]).error)
      else
        assert forall i :: 0 <= i < |a| ==> ShowReferencesArgAccepted(i, a[i]);
        Ok(Some(seq(|a|, i requires 0 <= i < |a| => ConvertShowReferencesArg(i, a[i]).value)))
  }

  /** Converting already converted arguments changes nothing. */
  lemma {:induction false} ConvertShowReferencesArgsIdempotent(args: Option<seq<CommandArg>>)
    requires ConvertShowReferencesArgs(args).Ok?
    ensures ConvertShowReferencesArgs(ConvertShowReferencesArgs(args).value) == ConvertShowReferencesArgs(args)
  {
    if args.Some? {
      var a := args.value;
      var once := ConvertShowReferencesArgs(args).value.value;
      forall i | 0 <= i < |once| ensures ShowReferencesArgAccepted(i, once[i]) && ConvertShowReferencesArg(i, once[i]) == Ok(once[i]) {
        assert ShowReferencesArgAccepted(i, a[i]);
        assert once[i] == ConvertShowReferencesArg(i, a[i]).value;
      }
      var twice := ConvertShowReferencesArgs(Some(once));
      assert twice.Ok?;
      assert twice.value.value == once;
    }
  }

  /** The members every plain object inherits; looking one of them up in an
      object literal finds a function or object, not a mapping entry. */
  const ObjectPrototypeKeys: set<string> := {
    "constructor", "hasOwnProperty", "isPrototypeOf", "propertyIsEnumerable",
    "toLocaleString", "toString", "valueOf", "__proto__",
    "__defineGetter__", "__defineSetter__", "__lookupGetter__", "__lookupSetter__"
  }

  /** The known command renamed, with its converted arguments or the error the
      conversion raised. */
  function ShowReferencesMapped(args: Option<seq<CommandArg>>): Result<(Option<string>, Option<seq<CommandArg>>), string> {
    match ConvertShowReferencesArgs(args)
    case Ok(converted) => Ok((Some(ShowReferencesInternal), converted))
    case Err(e) => Err(e)
  }

  /** `KnownCommands.map` as written: the table is an object literal, so an id
      naming an inherited member passes the truthiness test, and calling its
      missing conversion function throws a TypeError. An absent id is looked
      up as the key "undefined", which is not in the table. */
  function MapKnownCommandAsWritten(id: Option<string>, args: Option<seq<CommandArg>>): (r: Result<(Option<string>, Option<seq<CommandArg>>), string>)
    ensures id == Some(ShowReferences) ==>
      (r.Ok? <==> ConvertShowReferencesArgs(args).Ok?) &&
      (r.Ok? ==> r.value == (Some(ShowReferencesInternal), ConvertShowReferencesArgs(args).value))
    ensures id != Some(ShowReferences) ==> (r.Err? <==> id.Some? && id.value in ObjectPrototypeKeys)
    ensures id != Some(ShowReferences) && r.Ok? ==> r.value == (id, args)
  {
    if id == Some(ShowReferences) then ShowReferencesMapped(args)
    else if id.Some? && id.value in ObjectPrototypeKeys then Err("TypeError: mappings[id][1] is not a function")
    else Ok((id, args))
  }

  /** `KnownCommands.map` with the table's own entries only: the one known
      command is renamed and its arguments converted, every other id and its
      arguments pass through. */
  function MapKnownCommand(id: Option<string>, args: Option<seq<CommandArg>>): (r: Result<(Option<string>, Option<seq<CommandArg>>), string>)
    ensures id == Some(ShowReferences) ==>
      (r.Ok? <==> ConvertShowReferencesArgs(args).Ok?) &&
      (r.Ok? ==> r.value == (Some(ShowReferencesInternal), ConvertShowReferencesArgs(args).value))
    ensures id != Some(ShowReferences) ==> r == Ok((id, args))
  {
    if id == Some(ShowReferences) then ShowReferencesMapped(args)
    else Ok((id, args))
  }

  /** A command whose id is an inherited member name makes the code as written
      throw; the corrected map passes it through, and both agree on every
      other id. */
  lemma KnownCommandInheritedKey(id: Option<string>, args: Option<seq<CommandArg>>)
    ensures MapKnownCommandAsWritten(Some("toString"), args).Err?
    ensures MapKnownCommand(Some("toString"), args) == Ok((Some("toString"), args))
    ensures !(id.Some? && id.value in ObjectPrototypeKeys) ==>
      MapKnownCommandAsWritten(id, args) == MapKnownCommand(id, args)
  {
  }

  /** The first truthy string of two, else a single space. */
  function TitleOf(title: Option<string>, alias: Option<string>): (r: string)
    ensures r != ""
    ensures Truthy(title) ==> r == title.value
    ensures !Truthy(title) && Truthy(alias) ==> r == alias.value
  {
    if Truthy(title) then title.value else if Truthy(alias) then alias.value else " "
  }

  /** Converts a plugin command for the main side: its id is `command`, or `id`
      when `command` is falsy; the title is never empty. The id goes through
      `KnownCommands.map` as written, so an id naming an inherited member of
      the table object throws, and so do `editor.action.showReferences`
      arguments that cannot be converted. */
  function ToInternalCommand(external: Command): (r: Result<LspCommand, string>)
    ensures var id := if Truthy(external.command) then external.command else external.id;
      r.Err? <==>
        (id.Some? && id.value in ObjectPrototypeKeys) ||
        (id == Some(ShowReferences) && ConvertShowReferencesArgs(external.arguments).Err?)
    ensures r.Ok? ==> r.value.title != "" && r.value.tooltip == external.tooltip
    ensures r.Ok? && Truthy(external.title) ==> r.value.title == external.title.value
    ensures var id := if Truthy(external.command) then external.command else external.id;
      r.Ok? ==>
      (id == Some(ShowReferences) ==> r.value.command == Some(ShowReferencesInternal) && r.value.arguments == ConvertShowReferencesArgs(external.arguments).value) &&
      (id != Some(ShowReferences) ==> r.value.command == id && r.value.arguments == external.arguments)
  {
    var id := if Truthy(external.command) then external.command else external.id;
    match MapKnownCommandAsWritten(id, external.arguments)
    case Err(e) => Err(e)
    case Ok((mappedId, mappedArgs)) => Ok(LspCommand(mappedId, TitleOf(external.title, external.alias), external.tooltip, mappedArgs))
  }
}
