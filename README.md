# bsl-parser core, modelled in Dafny

This project models the hand-written core of bsl-parser. bsl-parser is the ANTLR-based parser of 1C:Enterprise BSL (the built-in language of the 1C platform), together with its documentation-comment readers. The model covers six groups:

- **Source positions.**
  - `SimpleRange` (module `SimpleRanges`): 0-based ranges built from tokens, and the lexicographic containment test.
  - The CR-aware lexer simulator (`LexerLines`): it counts lines with `\n`, a lone `\r` and `\r\n` as one break each.
  - The case-changing character stream (`CaseChanging`, over a code-point stream in `CharStreams`): it upper-cases the lookahead and never the text.
- **Parse-tree tokens** (`ParseTrees`): the terminal symbols of a subtree, collected left to right, and the node's cached `getText`/`getTokens`.
- **Hyperlinks** (`Hyperlinks`): `create(link, params)`, `create(presentation)`, equality and `toString`.
- **The description model** (`Descriptions`): simple, collection and hyperlink type descriptions, parameter descriptions, their smart constructors and the `allElements` flattening.
- **The description readers.**
  - `ReaderUtils`: `extractText` and `readLinks`.
  - `DescriptionReaders`: the older `DescriptionReader`, with its `TempParameterData`/`TempParameterTypeData` accumulators and its line loops.
  - `MethodDescriptionReaders`: the visitor `MethodDescriptionReader`, with its own accumulators and the shifting of ranges into module coordinates.
  - `VariableDescriptionReaders`: the visitor `VariableDescriptionReader`.
- **`Lazy`** (module `Util`): a compute-once cell with `clear`.

The parser that turns a comment's text into a description tree is generated from a grammar. It is a parameter `parse` of the readers. The tree it yields is an abstract datatype of blocks and line kinds:

- parameter line;
- types line;
- description line;
- field line, with its run of `*`;
- empty line;
- returns-value line, with the text of its start part.

Objects whose fields the source updates are classes with `modifies` clauses:

- the lexer simulator;
- the streams;
- the parse-tree node with its `Lazy` caches;
- `Lazy`;
- the token list the tree walk fills;
- the two visitor readers.

Each visitor callback is proved against a function of the reader's old state. Each loop is proved against a fold over the lines already read. Properties of those functions are then proved as lemmas.

The accumulators (`TempParameterData`, `TempParameterTypeData`) are datatype values updated functionally. Each one is owned by exactly one reader, so nothing is lost to aliasing.

## Model

| member | source | states |
|---|---|---|
| SimpleRanges.ContainsRange | src/main/java/com/github/_1c_syntax/bsl/parser/description/support/SimpleRange.java:45-58 | true exactly when the bigger range starts at or before, and ends at or after, the smaller one, comparing (line, character) lexicographically |
| SimpleRanges.ContainsRangeReflexive | src/main/java/com/github/_1c_syntax/bsl/parser/description/support/SimpleRange.java:45-58 | every range contains itself |
| SimpleRanges.ContainsRangeTransitive | src/main/java/com/github/_1c_syntax/bsl/parser/description/support/SimpleRange.java:45-58 | containment is transitive |
| SimpleRanges.ContainsRangeExamples | src/test/java/com/github/_1c_syntax/bsl/parser/description/support/SimpleRangeTest.java:32-41 | overlapping but not nested ranges are rejected both ways; an enclosing range accepts both |
| SimpleRanges.Create | src/main/java/com/github/_1c_syntax/bsl/parser/description/support/SimpleRange.java:67-79 | lines become 0-based; the start column is kept; the end column is the end token's column plus its text length, or its column alone for EOF |
| SimpleRanges.CreateFromToken | src/main/java/com/github/_1c_syntax/bsl/parser/description/support/SimpleRange.java:87-89 | a token's range is the range from that token to itself |
| SimpleRanges.TokenRangeWidth | src/main/java/com/github/_1c_syntax/bsl/parser/description/support/SimpleRange.java:67-89 | a non-EOF token's range lies on one line and is as wide as the token's text |
| SimpleRanges.CreateFromTokens | src/main/java/com/github/_1c_syntax/bsl/parser/description/support/SimpleRange.java:97-105 | no tokens give the all-zero (empty) range; otherwise the range runs from the first token to the last |
| SimpleRanges.TokensRangeContainsEach | src/main/java/com/github/_1c_syntax/bsl/parser/description/support/SimpleRange.java:97-105 | for tokens in source order, the list's range contains the range of each token |
| SimpleRanges.CreateRange | src/main/java/com/github/_1c_syntax/bsl/parser/description/support/SimpleRange.java:116-118 | the four coordinates are kept as given |
| SimpleRanges.CreateLine | src/main/java/com/github/_1c_syntax/bsl/parser/description/support/SimpleRange.java:128-130 | a one-line range: start and end line are both the given line |
| SimpleRanges.IsEmpty | src/main/java/com/github/_1c_syntax/bsl/parser/description/support/SimpleRange.java:137-140 | empty exactly when all four coordinates are zero |
| LexerLines.CRAwareLexerATNSimulator.Consume | src/main/java/com/github/_1c_syntax/bsl/parser/CRAwareLexerATNSimulator.java:39-54 | `\n` and a lone `\r` start a new line at column 0; `\r` before `\n` moves nothing; any other character advances the column by one; the input moves by exactly one; position after the rest of the input is unchanged |
| LexerLines.LinesCountBreaks | src/main/java/com/github/_1c_syntax/bsl/parser/CRAwareLexerATNSimulator.java:39-54 | after a whole input the line number has grown by the number of `\n`, lone `\r` and `\r\n` breaks |
| LexerLines.CrLfExample | src/test/java/org/github/_1c_syntax/bsl/parser/BSLLexerTest.java:85-93 | for `\r\n\r\r\n` the positions at the starts of its tokens are on lines 1, 1, 2, 3, 3, 4 |
| LexerLines.CRAwareLexerATNSimulator.constructor | src/main/java/com/github/_1c_syntax/bsl/parser/CRAwareLexerATNSimulator.java:30-36 | a fresh simulator is at line 1, column 0 |
| CaseChanging.ToUpperCase | src/main/java/com/github/_1c_syntax/bsl/parser/CaseChangingCharStream.java:91-97 | upper-casing keeps a code point positive exactly when it was |
| CaseChanging.ToUpperCaseIdempotent | src/main/java/com/github/_1c_syntax/bsl/parser/CaseChangingCharStream.java:91-97 | upper-casing twice is upper-casing once |
| CaseChanging.AnyLetterCase | src/main/java/com/github/_1c_syntax/bsl/parser/CaseChangingCharStream.java:91-97 | a word of upper-case Latin or Cyrillic letters, spelled with any of its letters in lower case, reaches the lexer as the word itself |
| CaseChanging.KeywordSpellings | src/main/java/com/github/_1c_syntax/bsl/parser/CaseChangingCharStream.java:91-97 | Если/ЕСЛИ/если each upper-case to one code-point sequence, and If/IF/if to another |
| CaseChanging.CaseChangingCharStream.constructor | src/main/java/com/github/_1c_syntax/bsl/parser/CaseChangingCharStream.java:76-78 | the wrapper holds the given stream |
| CaseChanging.CaseChangingCharStream.LA | src/main/java/com/github/_1c_syntax/bsl/parser/CaseChangingCharStream.java:91-97 | non-positive lookahead (EOF) passes through; positive lookahead is upper-cased |
| CaseChanging.CaseChangingCharStream.GetText | src/main/java/com/github/_1c_syntax/bsl/parser/CaseChangingCharStream.java:81-83 | the text is the wrapped stream's own text |
| CaseChanging.CaseChangingCharStream.Index | src/main/java/com/github/_1c_syntax/bsl/parser/CaseChangingCharStream.java:110-112 | the position is the wrapped stream's |
| CaseChanging.CaseChangingCharStream.Size | src/main/java/com/github/_1c_syntax/bsl/parser/CaseChangingCharStream.java:120-122 | the size is the wrapped stream's |
| CaseChanging.CaseChangingCharStream.Consume | src/main/java/com/github/_1c_syntax/bsl/parser/CaseChangingCharStream.java:86-88 | consuming moves the wrapped stream by one |
| CaseChanging.CaseChangingCharStream.Seek | src/main/java/com/github/_1c_syntax/bsl/parser/CaseChangingCharStream.java:115-117 | seeking moves the wrapped stream to the index |
| CaseChanging.CaseChangingCharStream.Mark | src/main/java/com/github/_1c_syntax/bsl/parser/CaseChangingCharStream.java:100-102 | a mark is the wrapped stream's mark, which for a stream over a whole string is always -1 |
| CaseChanging.SameLookaheadUpToCase | src/main/java/com/github/_1c_syntax/bsl/parser/CaseChangingCharStream.java:91-97 | two inputs equal up to letter case give the same lookahead at the same position |
| CaseChanging.TextIsOriginal | src/main/java/com/github/_1c_syntax/bsl/parser/CaseChangingCharStream.java:81-83 | the whole text read through the wrapper is the original input, not upper-cased |
| ParseTrees.TextIsTokensText | src/main/java/com/github/_1c_syntax/bsl/parser/BSLParserRuleContext.java:56-72 | a tree's text is the text of its terminal tokens run together |
| ParseTrees.ChildrenTokensAppend | src/main/java/com/github/_1c_syntax/bsl/parser/BSLParserRuleContext.java:56-67 | the tokens of a row of children split over any division of the row |
| ParseTrees.ChildTokensSlice | src/main/java/com/github/_1c_syntax/bsl/parser/BSLParserRuleContext.java:56-67 | child i's tokens sit in the parent's list right after the tokens of the children before it |
| ParseTrees.TokenList.Add | src/main/java/com/github/_1c_syntax/bsl/parser/BSLParserRuleContext.java:62 | adding appends one token at the end |
| ParseTrees.ChildrenTokensSnoc | src/main/java/com/github/_1c_syntax/bsl/parser/BSLParserRuleContext.java:56-67 | one more child adds exactly its tokens after those of the children before it |
| ParseTrees.GetTokensFromParseTree | src/main/java/com/github/_1c_syntax/bsl/parser/BSLParserRuleContext.java:56-67 | the walk appends the children's terminal symbols, left to right and depth first, to the list |
| ParseTrees.BSLParserRuleContext.constructor | src/main/java/com/github/_1c_syntax/bsl/parser/BSLParserRuleContext.java:42-54 | a new node has empty text and token caches, built with the suppliers of its text and of its tokens |
| ParseTrees.BSLParserRuleContext.ComputeTokens | src/main/java/com/github/_1c_syntax/bsl/parser/BSLParserRuleContext.java:88-96 | a node without children has no tokens; otherwise the tokens are the subtree's terminals in order |
| ParseTrees.BSLParserRuleContext.GetTokens | src/main/java/com/github/_1c_syntax/bsl/parser/BSLParserRuleContext.java:74-76 | the first call stores the node's tokens; later calls return the stored list |
| ParseTrees.BSLParserRuleContext.GetText | src/main/java/com/github/_1c_syntax/bsl/parser/BSLParserRuleContext.java:70-72 | the first call stores the node's text; later calls return the stored text |
| ParseTrees.Tokens | src/main/java/com/github/_1c_syntax/bsl/parser/BSLParserRuleContext.java:56-67 | the terminal symbols of a tree, left to right |
| ParseTrees.Text | src/main/java/com/github/_1c_syntax/bsl/parser/BSLParserRuleContext.java:69-72 | the text of a tree: a terminal's text, or its children's run together |
| Hyperlinks.Create | src/main/java/com/github/_1c_syntax/bsl/parser/description/support/Hyperlink.java:46-54 | a null or empty link gives EMPTY; otherwise the link is kept and a null params becomes "" |
| Hyperlinks.CreateExamples | src/test/java/com/github/_1c_syntax/bsl/parser/description/support/HyperlinkTest.java:31-82 | the create(link, params) and equals examples hold |
| Hyperlinks.ParamsEnd | src/main/java/com/github/_1c_syntax/bsl/parser/description/support/Hyperlink.java:67-70 | the params end at the last `)`, or at the end when there is none |
| Hyperlinks.CreateFromPresentation | src/main/java/com/github/_1c_syntax/bsl/parser/description/support/Hyperlink.java:64-75 | without a first `(` strictly inside the text, the whole text is the link with "" params. Otherwise the link is the text before it and the params run up to the last `)`. A last `)` before the first `(` is an out-of-bounds failure |
| Hyperlinks.SplitAt | src/main/java/com/github/_1c_syntax/bsl/parser/description/support/Hyperlink.java:64-75 | with the first `(` at pos and the last `)` at end, the result is (text before pos, text between them) |
| Hyperlinks.PresentationWithParams | src/test/java/com/github/_1c_syntax/bsl/parser/description/support/HyperlinkTest.java:84-96 | `example(param1,param2)` reads as link `example` with those params |
| Hyperlinks.PresentationWithoutParams | src/test/java/com/github/_1c_syntax/bsl/parser/description/support/HyperlinkTest.java:98-108 | `example` reads as link `example` with "" params |
| Hyperlinks.PresentationWithEmptyParams | src/test/java/com/github/_1c_syntax/bsl/parser/description/support/HyperlinkTest.java:110-121 | `example()` reads as link `example` with "" params |
| Hyperlinks.Equals | src/main/java/com/github/_1c_syntax/bsl/parser/description/support/Hyperlink.java:78-86 | two hyperlinks are equal exactly when they are the same value: equality of both fields is equality of the record |
| Hyperlinks.PresentationOfToString | src/main/java/com/github/_1c_syntax/bsl/parser/description/support/Hyperlink.java:64-91 | reading back the rendering of a hyperlink with a non-empty link free of `(` gives the hyperlink |
| Hyperlinks.ToStringOfPresentation | src/main/java/com/github/_1c_syntax/bsl/parser/description/support/Hyperlink.java:64-91 | conversely, `link(params)` with non-empty params, its only `(` after the link and its only `)` last, renders back to itself |
| Hyperlinks.ToString | src/main/java/com/github/_1c_syntax/bsl/parser/description/support/Hyperlink.java:88-91 | the rendering starts with the link and is exactly "(params)" longer when there are parameters |
| Descriptions.VariantOf | src/main/java/com/github/_1c_syntax/bsl/parser/description/TypeDescription.java:83-87 | each of the three description classes answers its own variant, and only it |
| Descriptions.CreateSimple | src/main/java/com/github/_1c_syntax/bsl/parser/description/SimpleTypeDescription.java:40-69 | blank name and description give EMPTY; otherwise both are stripped and fields and element kept |
| Descriptions.CreateSimpleStrips | src/main/java/com/github/_1c_syntax/bsl/parser/description/SimpleTypeDescription.java:59-69 | either way the name and the description are their stripped inputs |
| Descriptions.CreateCollection | src/main/java/com/github/_1c_syntax/bsl/parser/description/CollectionTypeDescription.java:66-85 | the name is `Collection<Value>` (or the collection name without a value-type name), stripped; the collection name and description are stripped; value type, fields and element are kept |
| Descriptions.CollectionOfEmpty | src/main/java/com/github/_1c_syntax/bsl/parser/description/CollectionTypeDescription.java:71-75 | with the EMPTY value type the name is the stripped collection name |
| Descriptions.CollectionName | src/main/java/com/github/_1c_syntax/bsl/parser/description/CollectionTypeDescription.java:71-79 | with a stripped collection name and a named value type the name is exactly `Collection<Value>` |
| Descriptions.CreateHyperlink | src/main/java/com/github/_1c_syntax/bsl/parser/description/HyperlinkTypeDescription.java:60-68 | named by the hyperlink's link, hyperlink kept, description stripped, fields and element kept |
| Descriptions.NewParameter | src/main/java/com/github/_1c_syntax/bsl/parser/description/ParameterDescription.java:44-48 | the name is stripped; element and types are kept in order |
| Descriptions.Link | src/main/java/com/github/_1c_syntax/bsl/parser/description/ParameterDescription.java:55-67 | the single hyperlink type's hyperlink when the parameter is a hyperlink, EMPTY otherwise |
| Descriptions.HyperlinkParameter | src/main/java/com/github/_1c_syntax/bsl/parser/description/ParameterDescription.java:55-67 | a parameter of one hyperlink type is a hyperlink, links where its type does, and the type is named by that link |
| Descriptions.AllElementsShape | src/main/java/com/github/_1c_syntax/bsl/parser/description/TypeDescription.java:73-78 | allElements starts with the type's own element and has one entry more than its fields contribute |
| Descriptions.FieldElementsInOrder | src/main/java/com/github/_1c_syntax/bsl/parser/description/TypeDescription.java:73-78 | field i's elements follow the type's element and those of the earlier fields |
| Descriptions.TypeElementsInOrder | src/main/java/com/github/_1c_syntax/bsl/parser/description/ParameterDescription.java:74-79 | type i's elements follow the parameter's element and those of the earlier types |
| Descriptions.IsHyperlink | src/main/java/com/github/_1c_syntax/bsl/parser/description/ParameterDescription.java:55-58 | a parameter is a hyperlink exactly when it has one type and that type is a hyperlink type |
| Descriptions.AllElements | src/main/java/com/github/_1c_syntax/bsl/parser/description/TypeDescription.java:73-78 | a type's elements start with its own and number at least one more than its fields |
| Descriptions.ParameterElements | src/main/java/com/github/_1c_syntax/bsl/parser/description/ParameterDescription.java:74-79 | a parameter's elements start with its own and number at least one more than its types |
| ReaderUtils.DescriptionString | src/main/java/com/github/_1c_syntax/bsl/parser/description/reader/ReaderUtils.java:55-64 | a line's text without start parts is stripped, and empty exactly when the rest is blank |
| ReaderUtils.ExtractText | src/main/java/com/github/_1c_syntax/bsl/parser/description/reader/ReaderUtils.java:51-65 | "" for a missing or empty context; otherwise the texts of the non-startPart children run together and stripped |
| ReaderUtils.NoStartPartText | src/main/java/com/github/_1c_syntax/bsl/parser/description/reader/ReaderUtils.java:55-62 | without startPart children the text read is the children's whole text |
| ReaderUtils.StartPartIgnored | src/main/java/com/github/_1c_syntax/bsl/parser/description/reader/ReaderUtils.java:59 | a startPart child contributes nothing wherever it stands |
| ReaderUtils.HyperlinkNodes | src/main/java/com/github/_1c_syntax/bsl/parser/description/reader/ReaderUtils.java:77 | every node collected is a hyperlink node |
| ReaderUtils.LinkOf | src/main/java/com/github/_1c_syntax/bsl/parser/description/reader/ReaderUtils.java:83-87 | a missing link token gives EMPTY; a non-empty link keeps link and params, a missing params token reading as "" |
| ReaderUtils.ReadLinks | src/main/java/com/github/_1c_syntax/bsl/parser/description/reader/ReaderUtils.java:76-92 | one hyperlink per hyperlink node of the tree, in tree order |
| ReaderUtils.ReadLinksEmpty | src/main/java/com/github/_1c_syntax/bsl/parser/description/reader/ReaderUtils.java:79-91 | the links are empty exactly when the tree holds no hyperlink node |
| ReaderUtils.HyperlinkComesFirst | src/main/java/com/github/_1c_syntax/bsl/parser/description/reader/ReaderUtils.java:77-88 | a hyperlink root's own link comes first |
| ReaderUtils.CommentText | src/main/java/com/github/_1c_syntax/bsl/parser/description/reader/MethodDescriptionReader.java:84-86 | the comment's text: "" without tokens, the token's text for one, and otherwise it starts with the first token's text |
| ReaderUtils.TextWithoutStartParts | src/main/java/com/github/_1c_syntax/bsl/parser/description/reader/ReaderUtils.java:55-62 | the text read without startPart children is no longer than the children's whole text |
| DescriptionReaders.ParamFromString | src/main/java/com/github/_1c_syntax/bsl/parser/description/reader/DescriptionReader.java:355-359 | a non-empty parameter named by the stripped text, without types, at level 1 |
| DescriptionReaders.ParamFromParameter | src/main/java/com/github/_1c_syntax/bsl/parser/description/reader/DescriptionReader.java:332-341 | empty exactly without a name; named by the stripped name; level 1 |
| DescriptionReaders.ParamFromField | src/main/java/com/github/_1c_syntax/bsl/parser/description/reader/DescriptionReader.java:343-353 | empty exactly without a name; named by the stripped name; at the given level |
| DescriptionReaders.AddTypes | src/main/java/com/github/_1c_syntax/bsl/parser/description/reader/DescriptionReader.java:394-416 | only appends types; an empty parameter or a missing type is left as it was |
| DescriptionReaders.AddListTypes | src/main/java/com/github/_1c_syntax/bsl/parser/description/reader/DescriptionReader.java:400-406 | the list loop only appends types |
| DescriptionReaders.NewType | src/main/java/com/github/_1c_syntax/bsl/parser/description/reader/DescriptionReader.java:418-426 | a new type with the given name, level and kind, no fields, and the description stripped as its one line if there is one |
| DescriptionReaders.BlankPieceSkipped | src/main/java/com/github/_1c_syntax/bsl/parser/description/reader/DescriptionReader.java:400-406 | a blank piece of a type list adds no type |
| DescriptionReaders.PieceAdded | src/main/java/com/github/_1c_syntax/bsl/parser/description/reader/DescriptionReader.java:400-426 | a non-blank piece adds one type named by the piece, stripped, at the parameter's level |
| DescriptionReaders.NewTypesCons | src/main/java/com/github/_1c_syntax/bsl/parser/description/reader/DescriptionReader.java:400-406 | the types made from names begin with the type of the first name |
| DescriptionReaders.ListTypesShareDescription | src/main/java/com/github/_1c_syntax/bsl/parser/description/reader/DescriptionReader.java:400-426 | a type list adds one type per non-blank piece, stripped, in order, each with the same description |
| DescriptionReaders.ListTypeNamesStripped | src/main/java/com/github/_1c_syntax/bsl/parser/description/reader/DescriptionReader.java:400-406 | the names taken from a list are stripped and non-empty |
| DescriptionReaders.AddTypesOk | src/main/java/com/github/_1c_syntax/bsl/parser/description/reader/DescriptionReader.java:394-426 | adding types keeps the nesting invariant: types at the parameter's level, fields one level below their type |
| DescriptionReaders.ParamFromParameterOk | src/main/java/com/github/_1c_syntax/bsl/parser/description/reader/DescriptionReader.java:332-341 | a parameter opened by a parameter line is well nested |
| DescriptionReaders.ParamFromFieldOk | src/main/java/com/github/_1c_syntax/bsl/parser/description/reader/DescriptionReader.java:343-353 | a field opened at a level is well nested |
| DescriptionReaders.ParamAddDescriptionOk | src/main/java/com/github/_1c_syntax/bsl/parser/description/reader/DescriptionReader.java:428-430 | a description line keeps the parameter well nested, its name and its level |
| DescriptionReaders.TypeAddDescriptionOk | src/main/java/com/github/_1c_syntax/bsl/parser/description/reader/DescriptionReader.java:459-468 | a description line keeps the type well nested |
| DescriptionReaders.ParamAddTextOk | src/main/java/com/github/_1c_syntax/bsl/parser/description/reader/DescriptionReader.java:432-434 | a continuation text keeps the parameter well nested |
| DescriptionReaders.TypeAddTextOk | src/main/java/com/github/_1c_syntax/bsl/parser/description/reader/DescriptionReader.java:470-479 | a continuation text keeps the type well nested |
| DescriptionReaders.ParamAddFieldOk | src/main/java/com/github/_1c_syntax/bsl/parser/description/reader/DescriptionReader.java:436-438 | a field line keeps the parameter well nested |
| DescriptionReaders.TypeAddFieldOk | src/main/java/com/github/_1c_syntax/bsl/parser/description/reader/DescriptionReader.java:488-499 | a field line keeps the type well nested |
| DescriptionReaders.DescriptionGoesToLastType | src/main/java/com/github/_1c_syntax/bsl/parser/description/reader/DescriptionReader.java:459-468 | with no fields, a description line becomes the last type's next description line, stripped |
| DescriptionReaders.StarlessFieldIgnored | src/main/java/com/github/_1c_syntax/bsl/parser/description/reader/DescriptionReader.java:488-492 | a field line without stars changes nothing at any depth |
| DescriptionReaders.FieldAtTypeLevel | src/main/java/com/github/_1c_syntax/bsl/parser/description/reader/DescriptionReader.java:494-496 | a star run as long as the last type's level adds a field to it, one level down |
| DescriptionReaders.FieldDelegated | src/main/java/com/github/_1c_syntax/bsl/parser/description/reader/DescriptionReader.java:494-498 | a star run of another length than the type's level goes to the type's last field, and is dropped when the type has no field |
| DescriptionReaders.MakeParameter | src/main/java/com/github/_1c_syntax/bsl/parser/description/reader/DescriptionReader.java:372-392 | the parameter keeps its name, has no link and is not a hyperlink; each type is built in order |
| DescriptionReaders.MakeType | src/main/java/com/github/_1c_syntax/bsl/parser/description/reader/DescriptionReader.java:374-390 | name kept; description lines joined by "\n"; fields built in order; a hyperlink type links to its name without the 4-character marker |
| DescriptionReaders.ParamsStep | src/main/java/com/github/_1c_syntax/bsl/parser/description/reader/DescriptionReader.java:283-305 | one line of the parameters block keeps the open parameter well nested |
| DescriptionReaders.ParamsFold | src/main/java/com/github/_1c_syntax/bsl/parser/description/reader/DescriptionReader.java:283-305 | after any lines the open parameter is well nested |
| DescriptionReaders.GetParametersStrings | src/main/java/com/github/_1c_syntax/bsl/parser/description/reader/DescriptionReader.java:279-313 | the loop yields the parameters closed by later parameter lines, then the one still open if it is not empty |
| DescriptionReaders.IgnoredWhileClosed | src/main/java/com/github/_1c_syntax/bsl/parser/description/reader/DescriptionReader.java:290-305 | with no parameter open, types, field and empty lines change nothing |
| DescriptionReaders.DescriptionLineOpens | src/main/java/com/github/_1c_syntax/bsl/parser/description/reader/DescriptionReader.java:292-299 | with no parameter open, a description line opens one exactly when its stripped text is one word, named by it |
| DescriptionReaders.ParameterLineCloses | src/main/java/com/github/_1c_syntax/bsl/parser/description/reader/DescriptionReader.java:285-290 | a parameter line emits the open non-empty parameter and opens the next one |
| DescriptionReaders.NamedFoldStep | src/main/java/com/github/_1c_syntax/bsl/parser/description/reader/DescriptionReader.java:279-292 | a named parameter line closes the open parameter, adding it when it is not empty, and opens one named by the line |
| DescriptionReaders.NamedParametersFold | src/main/java/com/github/_1c_syntax/bsl/parser/description/reader/DescriptionReader.java:279-292 | over named parameter lines every line but the last yields one parameter named by it, in order, and the last stays open |
| DescriptionReaders.NamedParameters | src/main/java/com/github/_1c_syntax/bsl/parser/description/reader/DescriptionReader.java:279-313 | parameter lines that all carry a name give one parameter per line, in order, the names of the parameters being exactly the names of the lines |
| DescriptionReaders.NewTypesAppend | src/main/java/com/github/_1c_syntax/bsl/parser/description/reader/DescriptionReader.java:400-406 | the types made from names split over any division of the names |
| DescriptionReaders.ReturnsStep | src/main/java/com/github/_1c_syntax/bsl/parser/description/reader/DescriptionReader.java:167-192 | one returns line keeps the collecting parameter well nested |
| DescriptionReaders.ReturnsFold | src/main/java/com/github/_1c_syntax/bsl/parser/description/reader/DescriptionReader.java:165-193 | after any returns lines the collecting parameter is well nested |
| DescriptionReaders.FirstReturnsValueFixesLength | src/main/java/com/github/_1c_syntax/bsl/parser/description/reader/DescriptionReader.java:169-172 | the first returns-value line fixes the start-part length |
| DescriptionReaders.SameLengthAddsTypes | src/main/java/com/github/_1c_syntax/bsl/parser/description/reader/DescriptionReader.java:170-172 | a returns-value line of that length adds its types |
| DescriptionReaders.OtherLengthAddsNoType | src/main/java/com/github/_1c_syntax/bsl/parser/description/reader/DescriptionReader.java:173-181 | a returns-value line of another length adds no type and continues the description with `type - description` |
| DescriptionReaders.HyperlinkParameter | src/main/java/com/github/_1c_syntax/bsl/parser/description/reader/DescriptionReader.java:113-121 | a hyperlink-only block stands for a nameless hyperlink parameter without types, linking to the block's text after its 4-character marker |
| DescriptionReaders.ParametersRead | src/main/java/com/github/_1c_syntax/bsl/parser/description/reader/DescriptionReader.java:105-131 | no block gives no parameters; a hyperlink-only block gives at most that one parameter; otherwise the block's lines are read |
| DescriptionReaders.NoParameterLines | src/main/java/com/github/_1c_syntax/bsl/parser/description/reader/DescriptionReader.java:124-127 | a block without parameter lines yields nothing beyond its hyperlink parameter |
| DescriptionReaders.ReadParameters | src/main/java/com/github/_1c_syntax/bsl/parser/description/reader/DescriptionReader.java:105-131 | computes the parameters of the comment |
| DescriptionReaders.HyperlinkReturnedType | src/main/java/com/github/_1c_syntax/bsl/parser/description/reader/DescriptionReader.java:147-158 | a hyperlink-only returns block stands for one hyperlink type named by the block's text and linking to it after the marker |
| DescriptionReaders.ReturnedValueRead | src/main/java/com/github/_1c_syntax/bsl/parser/description/reader/DescriptionReader.java:139-196 | no block gives no types; a hyperlink-only block gives at most that one type; otherwise the types collected from the lines |
| DescriptionReaders.ReadReturnedValue | src/main/java/com/github/_1c_syntax/bsl/parser/description/reader/DescriptionReader.java:139-196 | computes the returned value of the comment |
| DescriptionReaders.ReturnedTypes | src/main/java/com/github/_1c_syntax/bsl/parser/description/reader/DescriptionReader.java:165-195 | the loop's result is the built types of the parameter its lines filled |
| DescriptionReaders.DeprecationInfo | src/main/java/com/github/_1c_syntax/bsl/parser/description/reader/DescriptionReader.java:203-211 | the stripped deprecation text, or "" without a deprecate block or text |
| DescriptionReaders.ExampleLines | src/main/java/com/github/_1c_syntax/bsl/parser/description/reader/DescriptionReader.java:222-227 | the example lines' texts, blank ones dropped, each stripped and non-empty, no more of them than lines |
| DescriptionReaders.ExampleLinesKeepAll | src/main/java/com/github/_1c_syntax/bsl/parser/description/reader/DescriptionReader.java:222-227 | when no example line is blank, every line's text is kept, in order |
| DescriptionReaders.Examples | src/main/java/com/github/_1c_syntax/bsl/parser/description/reader/DescriptionReader.java:219-231 | no examples block gives none; otherwise the block's example lines |
| DescriptionReaders.LineTexts | src/main/java/com/github/_1c_syntax/bsl/parser/description/reader/DescriptionReader.java:266-277 | one text per line, each read without start parts |
| DescriptionReaders.PurposeDescription | src/main/java/com/github/_1c_syntax/bsl/parser/description/reader/DescriptionReader.java:239-249 | "" without a description block; otherwise its lines joined by "\n" and stripped |
| DescriptionReaders.OneLinePurpose | src/main/java/com/github/_1c_syntax/bsl/parser/description/reader/DescriptionReader.java:239-249 | a one-line purpose is that line's text |
| DescriptionReaders.MethodDescriptionRead | src/main/java/com/github/_1c_syntax/bsl/parser/description/reader/DescriptionReader.java:55-74 | the description is the comment text and the range the comments' range; every other part is read from the comment's tree |
| DescriptionReaders.ReadMethodDescription | src/main/java/com/github/_1c_syntax/bsl/parser/description/reader/DescriptionReader.java:55-74 | computes the method description of a comment |
| DescriptionReaders.AddType | src/main/java/com/github/_1c_syntax/bsl/parser/description/reader/DescriptionReader.java:418-426 | a new type with the text, the parameter's level, the hyperlink flag and no fields is appended after the parameter's existing types, which are kept |
| DescriptionReaders.ParamAddDescription | src/main/java/com/github/_1c_syntax/bsl/parser/description/reader/DescriptionReader.java:428-430 | the description goes to the last type, if any: the parameter's name, emptiness, level and number of types are kept, and every type but the last is unchanged |
| DescriptionReaders.TypeAddDescription | src/main/java/com/github/_1c_syntax/bsl/parser/description/reader/DescriptionReader.java:459-468 | name, level, hyperlink flag and number of fields are kept; a type without fields gains the stripped text as a new description line; otherwise the description stays and the text goes to the last field |
| DescriptionReaders.ParamAddText | src/main/java/com/github/_1c_syntax/bsl/parser/description/reader/DescriptionReader.java:432-434 | a text line goes to the last type, if any, keeping the parameter's name, emptiness, level, number of types and every type but the last |
| DescriptionReaders.TypeAddText | src/main/java/com/github/_1c_syntax/bsl/parser/description/reader/DescriptionReader.java:470-479 | an empty text changes nothing; otherwise as a description: a new stripped line without fields, the last field's text with them |
| DescriptionReaders.ParamAddField | src/main/java/com/github/_1c_syntax/bsl/parser/description/reader/DescriptionReader.java:436-438 | a field line goes to the last type, if any, keeping the parameter's name, emptiness, level, number of types and every type but the last |
| DescriptionReaders.TypeAddField | src/main/java/com/github/_1c_syntax/bsl/parser/description/reader/DescriptionReader.java:488-499 | name, level, hyperlink flag and description are kept; at most one field is added and every field but the last is unchanged |
| DescriptionReaders.ContinuationText | src/main/java/com/github/_1c_syntax/bsl/parser/description/reader/DescriptionReader.java:174-181 | the text of a returns line at another indentation starts with the type's text and ends in " - description"; it is empty exactly when there is neither |
| DescriptionReaders.ExampleLineKept | src/main/java/com/github/_1c_syntax/bsl/parser/description/reader/DescriptionReader.java:223-227 | a first example line whose text is not empty is kept at the head of the examples |
| DescriptionReaders.LineTextsCons | src/main/java/com/github/_1c_syntax/bsl/parser/description/reader/DescriptionReader.java:223-224 | the lines' texts are the first line's text followed by the rest's |
| MethodDescriptionReaders.FromNode | src/main/java/com/github/_1c_syntax/bsl/parser/description/reader/MethodDescriptionReader.java:297-303 | empty exactly for a missing context; named by its stripped text, ranged over its tokens, level 1, no types |
| MethodDescriptionReaders.FromToken | src/main/java/com/github/_1c_syntax/bsl/parser/description/reader/MethodDescriptionReader.java:305-311 | empty exactly for a missing token; named by its stripped text, over its range, level 1 |
| MethodDescriptionReaders.FromField | src/main/java/com/github/_1c_syntax/bsl/parser/description/reader/MethodDescriptionReader.java:317-329 | a nameless field is the empty parameter; a named one is at the given level, named by its stripped name |
| MethodDescriptionReaders.Described | src/main/java/com/github/_1c_syntax/bsl/parser/description/reader/MethodDescriptionReader.java:476-485 | a description keeps a type's name, level, variant and range; without fields it adds the stripped text as the next line |
| MethodDescriptionReaders.AddTypes | src/main/java/com/github/_1c_syntax/bsl/parser/description/reader/MethodDescriptionReader.java:353-358 | only appends types; an empty parameter or a missing type is left as it was |
| MethodDescriptionReaders.AddTypeCtx | src/main/java/com/github/_1c_syntax/bsl/parser/description/reader/MethodDescriptionReader.java:359-382 | dispatching on the type rule only appends types |
| MethodDescriptionReaders.AddListItems | src/main/java/com/github/_1c_syntax/bsl/parser/description/reader/MethodDescriptionReader.java:359-373 | each entry of a type list only appends types |
| MethodDescriptionReaders.AddListItem | src/main/java/com/github/_1c_syntax/bsl/parser/description/reader/MethodDescriptionReader.java:362-371 | one list entry only appends types |
| MethodDescriptionReaders.AddHyperlinkType | src/main/java/com/github/_1c_syntax/bsl/parser/description/reader/MethodDescriptionReader.java:385-390 | a hyperlink type only appends types |
| MethodDescriptionReaders.AddHyperlink | src/main/java/com/github/_1c_syntax/bsl/parser/description/reader/MethodDescriptionReader.java:401-411 | a hyperlink adds exactly one type |
| MethodDescriptionReaders.AddSimple | src/main/java/com/github/_1c_syntax/bsl/parser/description/reader/MethodDescriptionReader.java:392-399 | a simple type adds exactly one type |
| MethodDescriptionReaders.AddCollection | src/main/java/com/github/_1c_syntax/bsl/parser/description/reader/MethodDescriptionReader.java:413-423 | a collection adds exactly one type |
| MethodDescriptionReaders.TypeAddValueType | src/main/java/com/github/_1c_syntax/bsl/parser/description/reader/MethodDescriptionReader.java:518-522 | setting the value type changes nothing else about the collection type |
| MethodDescriptionReaders.ShiftRange | src/main/java/com/github/_1c_syntax/bsl/parser/description/reader/MethodDescriptionReader.java:343-349 | lines move by the line shift; columns move by the first-line shift only on line 0; widths and heights are kept; no shift is the identity |
| MethodDescriptionReaders.BuildParam | src/main/java/com/github/_1c_syntax/bsl/parser/description/reader/MethodDescriptionReader.java:338-351 | the stripped name, a PARAMETER_NAME element over the shifted range, and each type built in order |
| MethodDescriptionReaders.BuildType | src/main/java/com/github/_1c_syntax/bsl/parser/description/reader/MethodDescriptionReader.java:524-553 | the class matches the variant; a blank simple type is EMPTY. Otherwise: a TYPE_NAME element, the description lines joined and stripped, and the fields built in order. A collection without a value type gets EMPTY; a hyperlink type is named by its link |
| MethodDescriptionReaders.CollectionWithoutValueType | src/main/java/com/github/_1c_syntax/bsl/parser/description/reader/MethodDescriptionReader.java:537-545 | a collection without a value type is built over EMPTY and named by its collection name |
| MethodDescriptionReaders.BlockText | src/main/java/com/github/_1c_syntax/bsl/parser/description/reader/MethodDescriptionReader.java:141-156 | a block's text is stripped |
| MethodDescriptionReaders.ExtractedLines | src/main/java/com/github/_1c_syntax/bsl/parser/description/reader/MethodDescriptionReader.java:143-155 | each line read with extractText, in order |
| MethodDescriptionReaders.LineShift | src/main/java/com/github/_1c_syntax/bsl/parser/description/reader/MethodDescriptionReader.java:71-75 | non-negative, and startLine - 1 from line 1 on |
| MethodDescriptionReaders.CharShift | src/main/java/com/github/_1c_syntax/bsl/parser/description/reader/MethodDescriptionReader.java:71-75 | non-negative, and startCharacter - 1 from column 1 on |
| MethodDescriptionReaders.MethodDescriptionReader.constructor | src/main/java/com/github/_1c_syntax/bsl/parser/description/reader/MethodDescriptionReader.java:56-75 | an empty builder, no open parameter, no fixed indentation, and the shifts of the comment's range |
| MethodDescriptionReaders.MethodDescriptionReader.VisitMethodDescription | src/main/java/com/github/_1c_syntax/bsl/parser/description/reader/MethodDescriptionReader.java:112-122 | the new state is the old one with the blocks visited in order, after defaulting an absent returned value |
| MethodDescriptionReaders.MethodDescriptionReader.VisitBlock | src/main/java/com/github/_1c_syntax/bsl/parser/description/reader/MethodDescriptionReader.java:125-160 | the new state is the old one with the block visited |
| MethodDescriptionReaders.MethodDescriptionReader.AddOpenParameter | src/main/java/com/github/_1c_syntax/bsl/parser/description/reader/MethodDescriptionReader.java:172-183 | the open parameter, if it is not empty, is built and added to the builder |
| MethodDescriptionReaders.MethodDescriptionReader.VisitParametersBlock | src/main/java/com/github/_1c_syntax/bsl/parser/description/reader/MethodDescriptionReader.java:163-177 | the new state is the old one with the parameter lines read from an empty parameter, and the last open one added |
| MethodDescriptionReaders.MethodDescriptionReader.VisitParameterString | src/main/java/com/github/_1c_syntax/bsl/parser/description/reader/MethodDescriptionReader.java:180-221 | the new state is the old one with one line visited by its kind |
| MethodDescriptionReaders.MethodDescriptionReader.VisitParameter | src/main/java/com/github/_1c_syntax/bsl/parser/description/reader/MethodDescriptionReader.java:180-186 | the open parameter is added and the line's parameter opened with its types |
| MethodDescriptionReaders.MethodDescriptionReader.VisitTypesBlock | src/main/java/com/github/_1c_syntax/bsl/parser/description/reader/MethodDescriptionReader.java:189-195 | the types are added to the open parameter, if it is not empty |
| MethodDescriptionReaders.MethodDescriptionReader.VisitField | src/main/java/com/github/_1c_syntax/bsl/parser/description/reader/MethodDescriptionReader.java:198-201 | the field is added to the open parameter |
| MethodDescriptionReaders.MethodDescriptionReader.VisitTypeDescription | src/main/java/com/github/_1c_syntax/bsl/parser/description/reader/MethodDescriptionReader.java:204-221 | describes the open parameter, or with none open opens one from the first hyperlink or the lone token |
| MethodDescriptionReaders.MethodDescriptionReader.VisitReturnsValuesBlock | src/main/java/com/github/_1c_syntax/bsl/parser/description/reader/MethodDescriptionReader.java:224-237 | the lines fill a fresh parameter whose built types become the returned value |
| MethodDescriptionReaders.MethodDescriptionReader.VisitReturnsValuesString | src/main/java/com/github/_1c_syntax/bsl/parser/description/reader/MethodDescriptionReader.java:240-258 | the new state is the old one with one returns line visited by its kind |
| MethodDescriptionReaders.MethodDescriptionReader.VisitReturnsValue | src/main/java/com/github/_1c_syntax/bsl/parser/description/reader/MethodDescriptionReader.java:240-258 | the first line fixes the indentation and adds types; at that indentation types are added, otherwise `type - description` text |
| MethodDescriptionReaders.Read | src/main/java/com/github/_1c_syntax/bsl/parser/description/reader/MethodDescriptionReader.java:83-109 | reading a comment gives the method description of its text, links and range with the tree visited |
| MethodDescriptionReaders.MethodDescriptionRead | src/main/java/com/github/_1c_syntax/bsl/parser/description/reader/MethodDescriptionReader.java:83-160 | the description is the comment stripped, with the tree's links and the comments' range. The returned value is always set, and empty without a returns block. Deprecated exactly with a deprecate block; no parameters without a parameters block; purpose and examples exactly with their blocks, stripped |
| MethodDescriptionReaders.VisitedBlockEffect | src/main/java/com/github/_1c_syntax/bsl/parser/description/reader/MethodDescriptionReader.java:125-237 | each block sets only its own part of the builder |
| MethodDescriptionReaders.BlocksVisitedEffect | src/main/java/com/github/_1c_syntax/bsl/parser/description/reader/MethodDescriptionReader.java:112-237 | over the blocks in order the header stays, and each part is set exactly when its block occurs |
| MethodDescriptionReaders.HasBlockSnoc | src/main/java/com/github/_1c_syntax/bsl/parser/description/reader/MethodDescriptionReader.java:113-118 | a block kind occurs in a list exactly when it occurs before the last block or is the last block |
| MethodDescriptionReaders.ParameterStringsKeepBuilder | src/main/java/com/github/_1c_syntax/bsl/parser/description/reader/MethodDescriptionReader.java:180-221 | within a parameters block only the builder's parameter list changes |
| MethodDescriptionReaders.ReturnsStringsKeepBuilder | src/main/java/com/github/_1c_syntax/bsl/parser/description/reader/MethodDescriptionReader.java:240-258 | within a returns block the builder does not change |
| MethodDescriptionReaders.NamedLineStep | src/main/java/com/github/_1c_syntax/bsl/parser/description/reader/MethodDescriptionReader.java:180-186 | a named parameter line adds the open parameter and opens one named by the line |
| MethodDescriptionReaders.NamedFoldStep | src/main/java/com/github/_1c_syntax/bsl/parser/description/reader/MethodDescriptionReader.java:170-186 | the last of the named lines leaves open a parameter named by it, the one before being flushed |
| MethodDescriptionReaders.FlushedAppends | src/main/java/com/github/_1c_syntax/bsl/parser/description/reader/MethodDescriptionReader.java:180-183 | flushing a non-empty open parameter appends it under its stripped name and keeps the parameters before it |
| MethodDescriptionReaders.NamedParametersFold | src/main/java/com/github/_1c_syntax/bsl/parser/description/reader/MethodDescriptionReader.java:170-186 | over named parameter lines every line but the last yields one parameter named by it, in order after those already there, and the last stays open |
| MethodDescriptionReaders.NamedParameters | src/main/java/com/github/_1c_syntax/bsl/parser/description/reader/MethodDescriptionReader.java:163-186 | a block of named parameter lines keeps the parameters already read and adds one per line, the names added being exactly the names of the lines |
| MethodDescriptionReaders.EmptyParametersBlock | src/main/java/com/github/_1c_syntax/bsl/parser/description/reader/MethodDescriptionReader.java:165-167 | a parameters block without lines changes nothing |
| MethodDescriptionReaders.HyperlinkOpensLinkedParameter | src/main/java/com/github/_1c_syntax/bsl/parser/description/reader/MethodDescriptionReader.java:210-215 | with none open, a line's first hyperlink opens a parameter named by the link. Built, it is a hyperlink parameter linking to that link with its params, and its type carries the line's stripped text |
| MethodDescriptionReaders.LoneTokenOpensParameter | src/main/java/com/github/_1c_syntax/bsl/parser/description/reader/MethodDescriptionReader.java:217-219 | with none open and no hyperlink, a lone first token opens a parameter named by it |
| MethodDescriptionReaders.UnmatchedDescriptionIgnored | src/main/java/com/github/_1c_syntax/bsl/parser/description/reader/MethodDescriptionReader.java:204-221 | with none open, any other description line changes nothing |
| MethodDescriptionReaders.DescriptionGoesToLastType | src/main/java/com/github/_1c_syntax/bsl/parser/description/reader/MethodDescriptionReader.java:476-485 | with one open, a description line becomes its last type's next line, stripped |
| MethodDescriptionReaders.TypesIgnoredWhileClosed | src/main/java/com/github/_1c_syntax/bsl/parser/description/reader/MethodDescriptionReader.java:190-192 | a types line with none open changes nothing |
| MethodDescriptionReaders.SimpleItemStep | src/main/java/com/github/_1c_syntax/bsl/parser/description/reader/MethodDescriptionReader.java:359-373 | a simple list entry appends its own type at the parameter's level and hands the rest of the list on undescribed |
| MethodDescriptionReaders.ListItemsDescribedOnce | src/main/java/com/github/_1c_syntax/bsl/parser/description/reader/MethodDescriptionReader.java:359-373 | the list entries from i on append exactly their simple types, in order, only the first of them described |
| MethodDescriptionReaders.OnlyFirstListTypeDescribed | src/main/java/com/github/_1c_syntax/bsl/parser/description/reader/MethodDescriptionReader.java:359-373 | a list of simple types adds one type per entry, in order; only the first gets the line's description |
| MethodDescriptionReaders.ItemUndescribed | src/main/java/com/github/_1c_syntax/bsl/parser/description/reader/MethodDescriptionReader.java:363-371 | an entry of any kind read without a description appends only undescribed types |
| MethodDescriptionReaders.LaterEntriesUndescribed | src/main/java/com/github/_1c_syntax/bsl/parser/description/reader/MethodDescriptionReader.java:362-373 | every type the entries from i on append without a description is undescribed |
| MethodDescriptionReaders.OnlyFirstEntryDescribed | src/main/java/com/github/_1c_syntax/bsl/parser/description/reader/MethodDescriptionReader.java:359-373 | for a list of any entries, only the types of the first entry can carry the line's description; when the first entry adds no type, no type gets it |
| MethodDescriptionReaders.CollectionItemFresh | src/main/java/com/github/_1c_syntax/bsl/parser/description/reader/MethodDescriptionReader.java:362-371 | a collection entry appends a type at the parameter's level, without fields |
| MethodDescriptionReaders.AddListItemFresh | src/main/java/com/github/_1c_syntax/bsl/parser/description/reader/MethodDescriptionReader.java:362-371 | a list entry appends only new types at the parameter's level, without fields |
| MethodDescriptionReaders.AddListItemsFresh | src/main/java/com/github/_1c_syntax/bsl/parser/description/reader/MethodDescriptionReader.java:359-373 | the list loop appends only new types at the parameter's level |
| MethodDescriptionReaders.AddTypesFresh | src/main/java/com/github/_1c_syntax/bsl/parser/description/reader/MethodDescriptionReader.java:353-383 | addType appends only new types at the parameter's level |
| MethodDescriptionReaders.AddTypesOk | src/main/java/com/github/_1c_syntax/bsl/parser/description/reader/MethodDescriptionReader.java:353-383 | adding types keeps the nesting invariant |
| MethodDescriptionReaders.FromFieldOk | src/main/java/com/github/_1c_syntax/bsl/parser/description/reader/MethodDescriptionReader.java:317-329 | a new field is well nested, and at the given level when named |
| MethodDescriptionReaders.WithLastTypeOk | src/main/java/com/github/_1c_syntax/bsl/parser/description/reader/MethodDescriptionReader.java:331-336 | replacing the last type by a well-nested one at the same level keeps the parameter well nested |
| MethodDescriptionReaders.WithLastFieldOk | src/main/java/com/github/_1c_syntax/bsl/parser/description/reader/MethodDescriptionReader.java:498-503 | replacing the last field by a well-nested one a level down keeps the type well nested |
| MethodDescriptionReaders.ParamAddDescriptionOk | src/main/java/com/github/_1c_syntax/bsl/parser/description/reader/MethodDescriptionReader.java:425-431 | a description line keeps the parameter well nested |
| MethodDescriptionReaders.TypeAddDescriptionOk | src/main/java/com/github/_1c_syntax/bsl/parser/description/reader/MethodDescriptionReader.java:476-485 | a description line keeps the type well nested |
| MethodDescriptionReaders.ParamAddTextOk | src/main/java/com/github/_1c_syntax/bsl/parser/description/reader/MethodDescriptionReader.java:425-431 | a continuation text keeps the parameter well nested |
| MethodDescriptionReaders.TypeAddTextOk | src/main/java/com/github/_1c_syntax/bsl/parser/description/reader/MethodDescriptionReader.java:487-496 | a continuation text keeps the type well nested |
| MethodDescriptionReaders.ParamAddFieldOk | src/main/java/com/github/_1c_syntax/bsl/parser/description/reader/MethodDescriptionReader.java:433-435 | a field line keeps the parameter well nested |
| MethodDescriptionReaders.TypeAddFieldOk | src/main/java/com/github/_1c_syntax/bsl/parser/description/reader/MethodDescriptionReader.java:505-516 | a field line keeps the type well nested, with its name, level and variant |
| MethodDescriptionReaders.ParameterStringOk | src/main/java/com/github/_1c_syntax/bsl/parser/description/reader/MethodDescriptionReader.java:180-221 | every parameters-block line keeps the open parameter well nested |
| MethodDescriptionReaders.ParameterStringsOk | src/main/java/com/github/_1c_syntax/bsl/parser/description/reader/MethodDescriptionReader.java:163-221 | so do all of them |
| MethodDescriptionReaders.ReturnsValuesStringOk | src/main/java/com/github/_1c_syntax/bsl/parser/description/reader/MethodDescriptionReader.java:240-258 | every returns-block line keeps the collecting parameter well nested |
| MethodDescriptionReaders.ReturnsStringsOk | src/main/java/com/github/_1c_syntax/bsl/parser/description/reader/MethodDescriptionReader.java:224-258 | so do all of them |
| MethodDescriptionReaders.BlocksKeepNesting | src/main/java/com/github/_1c_syntax/bsl/parser/description/reader/MethodDescriptionReader.java:163-258 | a whole parameters or returns block, read from its start state, leaves the open parameter well nested |
| MethodDescriptionReaders.FirstReturnsValueFixesLevel | src/main/java/com/github/_1c_syntax/bsl/parser/description/reader/MethodDescriptionReader.java:244-246 | the first value line fixes the indentation and adds its types |
| MethodDescriptionReaders.SameLevelAddsTypes | src/main/java/com/github/_1c_syntax/bsl/parser/description/reader/MethodDescriptionReader.java:244-246 | a value line at that indentation adds its types |
| MethodDescriptionReaders.OtherLevelContinuesDescription | src/main/java/com/github/_1c_syntax/bsl/parser/description/reader/MethodDescriptionReader.java:247-256 | a value line at another indentation adds no type and continues the last type's description with `type - description` |
| MethodDescriptionReaders.ReturnedValueOfBlock | src/main/java/com/github/_1c_syntax/bsl/parser/description/reader/MethodDescriptionReader.java:224-237 | the returned value is the built types of the fake parameter the lines filled |
| MethodDescriptionReaders.TypeFromToken | src/main/java/com/github/_1c_syntax/bsl/parser/description/reader/MethodDescriptionReader.java:452-474 | a type named by the token, of the given variant and level, with no description, fields, value type or hyperlink, over the token's one-line range as wide as its text |
| MethodDescriptionReaders.TypeFromHyperlink | src/main/java/com/github/_1c_syntax/bsl/parser/description/reader/MethodDescriptionReader.java:452-469 | a HYPERLINK type named by the link, without description or fields; an empty link gives EMPTY, otherwise the hyperlink has the link and the parameters' text or "" |
| MethodDescriptionReaders.ParamAddDescription | src/main/java/com/github/_1c_syntax/bsl/parser/description/reader/MethodDescriptionReader.java:425-427 | the description goes to the last type, if any: name, emptiness, level, range and number of types are kept, and every type but the last is unchanged |
| MethodDescriptionReaders.TypeAddDescription | src/main/java/com/github/_1c_syntax/bsl/parser/description/reader/MethodDescriptionReader.java:476-485 | name, level, variant, range, value type, hyperlink and number of fields are kept; without fields the stripped text becomes a new description line, otherwise it goes to the last field |
| MethodDescriptionReaders.ParamAddText | src/main/java/com/github/_1c_syntax/bsl/parser/description/reader/MethodDescriptionReader.java:429-431 | a text line goes to the last type, if any, keeping the parameter's name, emptiness, level, range and every type but the last |
| MethodDescriptionReaders.TypeAddText | src/main/java/com/github/_1c_syntax/bsl/parser/description/reader/MethodDescriptionReader.java:487-496 | an empty text changes nothing; otherwise as a description, with the type's own parts kept |
| MethodDescriptionReaders.ParamAddField | src/main/java/com/github/_1c_syntax/bsl/parser/description/reader/MethodDescriptionReader.java:433-435 | a field line goes to the last type, if any, keeping the parameter's name, emptiness, level, range and every type but the last |
| MethodDescriptionReaders.TypeAddField | src/main/java/com/github/_1c_syntax/bsl/parser/description/reader/MethodDescriptionReader.java:505-516 | the type's own parts and description are kept; at most one field is added and every field but the last is unchanged |
| MethodDescriptionReaders.StarlessFieldIgnored | src/main/java/com/github/_1c_syntax/bsl/parser/description/reader/MethodDescriptionReader.java:505-509 | a field line without a star run changes nothing, however deep the nesting |
| MethodDescriptionReaders.FieldAtTypeLevel | src/main/java/com/github/_1c_syntax/bsl/parser/description/reader/MethodDescriptionReader.java:511-512 | a star run as long as the type's level adds one field, one level deeper, after the type's fields |
| MethodDescriptionReaders.FieldDelegated | src/main/java/com/github/_1c_syntax/bsl/parser/description/reader/MethodDescriptionReader.java:511-515 | a star run of another length goes to the type's last field, and is dropped when the type has no field |
| MethodDescriptionReaders.Flushed | src/main/java/com/github/_1c_syntax/bsl/parser/description/reader/MethodDescriptionReader.java:181-183 | only the parameters change: they gain the open parameter, built, exactly when it is not empty |
| MethodDescriptionReaders.VisitedTypesBlock | src/main/java/com/github/_1c_syntax/bsl/parser/description/reader/MethodDescriptionReader.java:189-195 | builder and indentation kept; the open parameter only gains types |
| MethodDescriptionReaders.VisitedParameter | src/main/java/com/github/_1c_syntax/bsl/parser/description/reader/MethodDescriptionReader.java:180-186 | the builder is flushed and the new parameter, opened from the line's name, only gains types after that |
| MethodDescriptionReaders.VisitedField | src/main/java/com/github/_1c_syntax/bsl/parser/description/reader/MethodDescriptionReader.java:198-201 | builder and indentation kept; the open parameter keeps its name, emptiness, level and number of types |
| MethodDescriptionReaders.VisitedTypeDescription | src/main/java/com/github/_1c_syntax/bsl/parser/description/reader/MethodDescriptionReader.java:204-221 | builder and indentation kept; an open non-empty parameter keeps its name, emptiness, level and number of types |
| MethodDescriptionReaders.VisitedParameterString | src/main/java/com/github/_1c_syntax/bsl/parser/description/reader/MethodDescriptionReader.java:180-221 | one parameters line keeps the indentation and only adds parameters; only a parameter line changes the builder |
| MethodDescriptionReaders.ParameterStringsVisited | src/main/java/com/github/_1c_syntax/bsl/parser/description/reader/MethodDescriptionReader.java:171 | over the lines the indentation is kept and the parameters only grow |
| MethodDescriptionReaders.VisitedParametersBlock | src/main/java/com/github/_1c_syntax/bsl/parser/description/reader/MethodDescriptionReader.java:163-177 | only the parameters change and they only grow; a block without lines changes nothing |
| MethodDescriptionReaders.ContinuationText | src/main/java/com/github/_1c_syntax/bsl/parser/description/reader/MethodDescriptionReader.java:248-254 | the text of a returns line at another indentation starts with the type's text and ends in " - description"; it is empty exactly when there is neither |
| MethodDescriptionReaders.VisitedReturnsValue | src/main/java/com/github/_1c_syntax/bsl/parser/description/reader/MethodDescriptionReader.java:240-258 | the builder is kept; the indentation stays or becomes this line's; the collecting parameter keeps its name, emptiness and level and only gains types |
| MethodDescriptionReaders.VisitedReturnsValuesString | src/main/java/com/github/_1c_syntax/bsl/parser/description/reader/MethodDescriptionReader.java:240-258 | one returns line keeps the builder, and a non-empty collecting parameter stays non-empty under its name |
| MethodDescriptionReaders.ReturnsStringsVisited | src/main/java/com/github/_1c_syntax/bsl/parser/description/reader/MethodDescriptionReader.java:233 | over the lines a non-empty collecting parameter stays non-empty under its name |
| MethodDescriptionReaders.VisitedReturnsValuesBlock | src/main/java/com/github/_1c_syntax/bsl/parser/description/reader/MethodDescriptionReader.java:224-237 | only the returned value changes, and it is set; the collecting parameter is the unnamed, non-empty one |
| MethodDescriptionReaders.VisitedBlock | src/main/java/com/github/_1c_syntax/bsl/parser/description/reader/MethodDescriptionReader.java:124-237 | a block never changes the description, links or range; an unread block or a parameters block without lines changes nothing |
| MethodDescriptionReaders.BlocksVisited | src/main/java/com/github/_1c_syntax/bsl/parser/description/reader/MethodDescriptionReader.java:121 | over the blocks the description, links and range are kept |
| MethodDescriptionReaders.VisitedMethodDescription | src/main/java/com/github/_1c_syntax/bsl/parser/description/reader/MethodDescriptionReader.java:112-122 | description, links and range kept; the returned value is always set, and is the empty list without a returns block |
| MethodDescriptionReaders.MethodDescriptionOf | src/main/java/com/github/_1c_syntax/bsl/parser/description/reader/MethodDescriptionReader.java:83-109 | the description is the comment's text stripped, the range is that of the tokens, the links are those of the parsed text, and a returned value is always set |
| MethodDescriptionReaders.TypeDescriptionOk | src/main/java/com/github/_1c_syntax/bsl/parser/description/reader/MethodDescriptionReader.java:204-221 | a description line keeps the open parameter well nested |
| MethodDescriptionReaders.ReturnsValueOk | src/main/java/com/github/_1c_syntax/bsl/parser/description/reader/MethodDescriptionReader.java:240-258 | a returns-value line keeps the collecting parameter well nested, whether it adds types or text |
| VariableDescriptionReaders.DeprecatedBy | src/main/java/com/github/_1c_syntax/bsl/parser/description/reader/VariableDescriptionReader.java:105-118 | deprecated, with the stripped deprecation text or ""; nothing else changes |
| VariableDescriptionReaders.VariableDescriptionReader.constructor | src/main/java/com/github/_1c_syntax/bsl/parser/description/reader/VariableDescriptionReader.java:55-59 | an empty builder and the non-negative shifts of the comment's range |
| VariableDescriptionReaders.VariableDescriptionReader.VisitMethodDescription | src/main/java/com/github/_1c_syntax/bsl/parser/description/reader/VariableDescriptionReader.java:100 | the builder is the old one with the blocks visited in order |
| VariableDescriptionReaders.VariableDescriptionReader.VisitDeprecateBlock | src/main/java/com/github/_1c_syntax/bsl/parser/description/reader/VariableDescriptionReader.java:105-118 | marks the variable deprecated with its deprecation text |
| VariableDescriptionReaders.VariableDescriptionReader.VisitDescriptionBlock | src/main/java/com/github/_1c_syntax/bsl/parser/description/reader/VariableDescriptionReader.java:121-130 | the purpose is the lines' extracted texts joined and stripped; nothing else changes |
| VariableDescriptionReaders.Read | src/main/java/com/github/_1c_syntax/bsl/parser/description/reader/VariableDescriptionReader.java:67-102 | reading a comment and an optional trailing comment gives the variable description of them |
| VariableDescriptionReaders.BlocksVisitedEffect | src/main/java/com/github/_1c_syntax/bsl/parser/description/reader/VariableDescriptionReader.java:99-130 | over the blocks the header stays; deprecated exactly with a deprecate block; a purpose exactly with a description block, stripped |
| VariableDescriptionReaders.VariableDescriptionRead | src/main/java/com/github/_1c_syntax/bsl/parser/description/reader/VariableDescriptionReader.java:78-130 | the description is the comment stripped, with the tree's links and the range. The trailing description is there exactly when a trailing comment is given, read as that one token. Deprecation and purpose come exactly from their blocks |
| VariableDescriptionReaders.TrailingDescription | src/main/java/com/github/_1c_syntax/bsl/parser/description/reader/VariableDescriptionReader.java:83-97 | the trailing description is the token's text stripped, over the token's range, with no trailing description of its own |
| VariableDescriptionReaders.VisitedBlock | src/main/java/com/github/_1c_syntax/bsl/parser/description/reader/VariableDescriptionReader.java:104-130 | a block changes only the deprecation flag and text and the purpose; a block other than a description or deprecate block changes nothing |
| VariableDescriptionReaders.VariableDescriptionOf | src/main/java/com/github/_1c_syntax/bsl/parser/description/reader/VariableDescriptionReader.java:67-102 | the description is the comment's text stripped over the tokens' range, and there is a trailing description exactly when there is a trailing comment |
| Util.Lazy.constructor | src/main/java/com/github/_1c_syntax/bsl/parser/util/Lazy.java:33-35 | no supplier and nothing stored |
| Util.Lazy.WithSupplier | src/main/java/com/github/_1c_syntax/bsl/parser/util/Lazy.java:37-40 | the supplier is kept and nothing is computed |
| Util.Lazy.GetOrComputeWith | src/main/java/com/github/_1c_syntax/bsl/parser/util/Lazy.java:42-45 | a stored value is returned as it is; otherwise the supplier is asked, as Compute says |
| Util.Lazy.MaybeCompute | src/main/java/com/github/_1c_syntax/bsl/parser/util/Lazy.java:60-66 | computes and stores once; a null supplier or a null answer fails |
| Util.Lazy.GetOrCompute | src/main/java/com/github/_1c_syntax/bsl/parser/util/Lazy.java:47-49 | uses the supplier given at construction |
| Util.Lazy.IsPresent | src/main/java/com/github/_1c_syntax/bsl/parser/util/Lazy.java:51-54 | true exactly when a value is stored |
| Util.Lazy.Clear | src/main/java/com/github/_1c_syntax/bsl/parser/util/Lazy.java:56-58 | the value is forgotten and the supplier kept |
| Util.ComputeKeepsPresent | src/main/java/com/github/_1c_syntax/bsl/parser/util/Lazy.java:42-45 | with a value stored, any supplier gives that value and the store is unchanged |
| Util.ComputeOnce | src/main/java/com/github/_1c_syntax/bsl/parser/util/Lazy.java:42-66 | after a successful call each later call returns the same value, whatever supplier is passed |
| Util.ComputeFails | src/main/java/com/github/_1c_syntax/bsl/parser/util/Lazy.java:60-66 | a call fails exactly when nothing is stored and the supplier is null or answers null, and then nothing is stored |

## Left out

- The lexers and parsers generated from the grammars (BSLLexer, BSLParser, SDBLLexer, SDBLParser, the description parsers) are not part of this model. The readers take the description parser as a parameter `parse`, and its trees as a datatype of blocks and line kinds. The tokenizer classes (BOM skipping, file reading, the SLL to LL retry) are left out with them.
- Ranges.java repeats SimpleRange.create on LSP types and is not part of this model.
- The keyword elements are left out. These are `builder.keyword(...)` in the `visit*Block` callbacks and `newElement`, MethodDescriptionReader.java:127,151,164,225,260-268, and the DEPRECATE_KEYWORD element that VariableDescriptionReader's `visitDeprecateBlock` adds, VariableDescriptionReader.java:107-110. They call `SimpleRange.create(token, lineShift, charShift)`, which the SimpleRange.java of this source tree does not define. So `VariableDescriptionReaders.VariableDescriptionReader.VisitDeprecateBlock` and `VariableDescriptionReaders.DeprecatedBy` set only the deprecation flag and text, and the reader's `lineShift` and `firstLineCharShift` are computed but end up unused.
- ReaderUtils.readLinks: in this source tree it takes two shifts, computes a shifted range with `SimpleRange.shift` and passes it to a three-argument `Hyperlink.create` (ReaderUtils.java:76-92). Neither is defined here, and the readers call it with the tree alone. `ReaderUtils.ReadLinks` models the one-argument form, `Hyperlink.create(link, params)` per node, which is what DescriptionReader.java:251-264 does.
- `DescriptionReader.readVariableDescription` (DescriptionReader.java:76-98) is not modelled. It builds its trailing description with `VariableDescription::create`, which the VariableDescription.java here does not define. VariableDescriptionReader.read, which also reads a trailing comment, is modelled, but it calls the same undefined `VariableDescription::create` on the one-token list (VariableDescriptionReader.java:85). `VariableDescriptionReaders.VariableDescriptionOf` and `VariableDescriptionReaders.TrailingDescription` assume that `create` reads that list as a comment of its own: the stripped text over the token's range, with no trailing description. This is an assumption, made plausible by the builder fields of VariableDescription.java:99-103.
- The `volatile` field and `synchronized` double check of Lazy are left out; the cell is modelled single-threaded. Null from a supplier is an explicit failure outcome instead of a NullPointerException.
- `String.intern` has no effect on values and is left out.
- `DescriptionReaders.TypeDescription` and `DescriptionReaders.ParameterDescription` follow the support classes, not the classes DescriptionReader.java imports. Its imports, DescriptionReader.java:26-27, name `description.ParameterDescription`, a record of (name, element, types), and `description.TypeDescription`, an interface. Neither has the constructors DescriptionReader.java calls at lines 116-119, 151-155 and 383-391. Only `support.TypeDescription` (name, description, parameters, link, isHyperlink; support/TypeDescription.java:61-65) and `support.ParameterDescription` (name, types, link, isHyperlink; support/ParameterDescription.java:49-52) have those shapes, so the model uses them. MethodDescriptionReader instead builds the description records of `Descriptions` (`ParameterDescription`, `SimpleTypeDescription`, `CollectionTypeDescription`, `HyperlinkTypeDescription`). The `support` classes' own getters are not modelled beyond these fields.
- `DescriptionReaders.TypeAddField`: its own ensures state only what a field line keeps (the type's own parts, the earlier fields, at most one field more). The star-run rules of DescriptionReader.java:488-499 are stated beside it by `DescriptionReaders.StarlessFieldIgnored` (no star run: nothing changes), `DescriptionReaders.FieldAtTypeLevel` (a level-long run adds a field one level down) and `DescriptionReaders.FieldDelegated` (any other run goes to the last field, or is dropped without one).
- `MethodDescriptionReaders.TypeAddField`: likewise, the rules of MethodDescriptionReader.java:505-516 are the lemmas `MethodDescriptionReaders.StarlessFieldIgnored`, `MethodDescriptionReaders.FieldAtTypeLevel` and `MethodDescriptionReaders.FieldDelegated`.
- `CaseChanging.ToUpperCase`: models `Character.toUpperCase` on the Latin and Cyrillic letters only; other code points map to themselves.
- `CaseChanging.CaseChangingCharStream.Release`: there is no `ensures`, since a release of the wrapped code-point stream changes nothing.
- `CharStreams.CharStream.Consume`: requires the stream not to be at its end. ANTLR's stream throws there, and the lexer never consumes past EOF. `CaseChanging.CaseChangingCharStream.Consume` and `LexerLines.CRAwareLexerATNSimulator.Consume` pass the same requirement on (`input.Index() < input.Size()`).
- `CharStreams.CharStream.Seek`: requires an index within the stream; the lexer only seeks back to positions it has read.
- `Text.Strip`, `Text.IsBlank`, `Text.Join` and `Text.JavaSplit` model `String.strip`, `String.isBlank`, `StringJoiner`/`Collectors.joining` and `split("\\s")` on `char` sequences. Whitespace is `Character.isWhitespace` for the first two and the regex class `\s` for the split. Surrogate pairs and supplementary code points are not modelled.
- `DescriptionReaders.MakeType`, `DescriptionReaders.MakeParameter`, `DescriptionReaders.ParametersRead`, `DescriptionReaders.ReturnedValueRead` and `DescriptionReaders.MethodDescriptionRead` require hyperlink types and hyperlink blocks to be at least 4 characters long. `substring(HYPERLINK_REF_LEN)` would throw on a shorter text, and the grammar makes these texts start with the 4-character reference marker `см. `.
- `MethodDescriptionReaders.MethodDescriptionReader.VisitField`, `VisitTypeDescription`, `VisitTypesBlock`, `VisitParameter`, `VisitParameterString`, `VisitReturnsValue` and `VisitReturnsValuesString` require an open-parameter slot. The source sets `lastReadParam` before visiting any such line and would throw on a null one. The grammar places these lines only inside parameters and returns blocks.
- A hyperlink rule whose link token is null is not modelled, so `HyperlinkCtx.link` is a token rather than an optional one. MethodDescriptionReader's `TempParameterTypeData` reads the link's text unconditionally (MethodDescriptionReader.java:401-411, 463-469), so such a hyperlink would throw.
- The null-list branches are left out: `descriptionString() == null`, `examplesString() == null`, `returnsValuesString() == null`. They are dead because ANTLR's list accessors return empty lists. An empty returns block reads through the general path, which in both readers yields no types.
- Lombok's `@Singular` builder: `parameters(emptyList())` adds nothing, and the model treats it so. The MethodDescription and VariableDescription builders are values whose unset parts are `None`. `build()` and the MethodDescription/VariableDescription classes themselves are not modelled.
- The link from the reader's blocks to the raw tree is not modelled. The tree (`MethodDescriptionCtx.tree`) serves only for collecting hyperlinks, and the blocks are given separately by `parse`.
- The `addType` type-list loop and the accumulators' in-place list appends are modelled as recursion over functional values, not as loops over mutable lists. Each accumulator is owned by one reader, so no sharing is lost.
- The lexer simulator's inherited ANTLR state (DFA cache, mode stack) is not part of this model; only `line`, `charPositionInLine` and the input position are.
