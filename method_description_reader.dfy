/**
 * MethodDescriptionReader: a visitor over the parse tree of a method's
 * documentation comment that fills a MethodDescription builder. It walks
 * the blocks of the comment in order; inside the parameters and returns
 * blocks it keeps the parameter being read (lastReadParam) and, for the
 * returns block, the indentation of the first returned type (typeLevel).
 * Positions are shifted from the comment's own text back to the module's
 * text when the descriptions are built.
 */
module MethodDescriptionReaders {
  import opened Wrappers
  import opened Text
  import opened SimpleRanges
  import opened ParseTrees
  import Hyperlinks
  import opened Descriptions
  import opened ReaderUtils

  // ---------------------------------------------------------------------------
  // The parse tree of a description comment, as the visitor sees it
  // ---------------------------------------------------------------------------

  /** A hyperlink: its link token and an optional parameters token. */
  datatype HyperlinkCtx = HyperlinkCtx(link: Token, linkParams: Option<Token>)

  datatype HyperlinkTypeCtx = HyperlinkTypeCtx(hyperlink: Option<HyperlinkCtx>)

  /** A collection type: the collection's token and an optional value type. */
  datatype CollectionTypeCtx = CollectionTypeCtx(collection: Token, valueType: Option<TypeCtx>)

  /** One entry of a comma-separated type list. */
  datatype ListTypeCtx =
    | ListHyperlink(hyperlinkType: HyperlinkTypeCtx)
    | ListSimple(typeName: Token)
    | ListCollection(collectionType: CollectionTypeCtx)
    | ListOther

  /** Which alternative of the type rule matched. */
  datatype TypeAlt =
    | ListTypes(listType: seq<ListTypeCtx>)
    | HyperlinkTypeAlt(hyperlinkType: HyperlinkTypeCtx)
    | SimpleTypeAlt(typeName: Token)
    | CollectionTypeAlt(collectionType: CollectionTypeCtx)
    | OtherTypeAlt

  /** A type context: its text and its alternative. */
  datatype TypeCtx = TypeCtx(text: string, alt: TypeAlt)

  /** A typeDescription: its text, the hyperlinks in it, and its first and second tokens (if any). */
  datatype TypeDescriptionCtx = TypeDescriptionCtx(text: string, hyperlinks: seq<HyperlinkCtx>,
                                                   first: Option<Token>, second: Option<Token>)

  datatype TypesBlockCtx = TypesBlockCtx(typ: Option<TypeCtx>, typeDescription: Option<TypeDescriptionCtx>)

  datatype ParameterCtx = ParameterCtx(parameterName: Option<RuleNode>, typesBlock: Option<TypesBlockCtx>)

  /** A field line: its star token, a name and a typesBlock, each optional. */
  datatype FieldCtx = FieldCtx(star: Option<Token>, parameterName: Option<RuleNode>,
                               typesBlock: Option<TypesBlockCtx>)

  /** One line of the parameters block. */
  datatype ParameterString =
    | ParameterLine(parameter: ParameterCtx)
    | TypesLine(typesBlock: TypesBlockCtx)
    | DescriptionLine(typeDescription: TypeDescriptionCtx)
    | FieldLine(field: FieldCtx)
    | EmptyLine

  /** What follows the start part of a line of the returns block. */
  datatype ReturnsLine =
    | ReturnsValue(valueTyp: Option<TypeCtx>, valueDescription: Option<TypeDescriptionCtx>)
    | ReturnsTypes(returnsTypesBlock: TypesBlockCtx)
    | ReturnsDescription(returnsDescription: TypeDescriptionCtx)
    | ReturnsField(returnsField: FieldCtx)
    | ReturnsEmpty

  /** One line of the returns block: the text of its startPart, then the line itself. */
  datatype ReturnsValuesString = ReturnsValuesString(startPart: string, line: ReturnsLine)

  /** The blocks of a method description, each with the lines the visitor reads. */
  datatype Block =
    | DescriptionBlock(descriptionStrings: seq<RuleNode>)
    | ParametersBlock(parameterStrings: seq<ParameterString>)
    | ReturnsValuesBlock(returnsValuesStrings: seq<ReturnsValuesString>)
    | ExamplesBlock(examplesStrings: seq<RuleNode>)
    | DeprecateBlock(deprecateDescription: Option<RuleNode>)
    | OtherBlock

  /** The whole comment: its blocks in order, and its tree for collecting hyperlinks. */
  datatype MethodDescriptionCtx = MethodDescriptionCtx(blocks: seq<Block>, tree: RuleNode)

  // ---------------------------------------------------------------------------
  // The accumulators
  // ---------------------------------------------------------------------------

  /** TempParameterData: a parameter being read, with the range of its name. */
  datatype MParam = MParam(name: string, empty: bool, types: seq<MType>, level: int, range: SimpleRange)

  /** TempParameterTypeData: a type being read. */
  datatype MType = MType(name: string, description: seq<string>, level: int, fields: seq<MParam>,
                         variant: Variant, valueType: Option<MType>, hyperlink: Hyperlinks.Hyperlink,
                         range: SimpleRange)

  const ZeroRange := SimpleRange(0, 0, 0, 0)

  /** fake(empty) and empty(): a nameless parameter at level 1. */
  function Fake(empty: bool): MParam {
    MParam([], empty, [], 1, ZeroRange)
  }

  /** create(ParserRuleContext): empty for a missing context, else named by its stripped text. */
  function FromNode(ctx: Option<RuleNode>): (p: MParam)
    ensures p.empty <==> ctx.None?
    ensures ctx.Some? ==> p.name == Strip(NodeText(ctx.value)) && p.range == CreateFromTokens(NodeTokens(ctx.value))
    ensures p.types == [] && p.level == 1
  {
    if ctx.None? then Fake(true)
    else MParam(Strip(NodeText(ctx.value)), false, [], 1, CreateFromTokens(NodeTokens(ctx.value)))
  }

  /** create(Token): empty for a missing token, else named by its stripped text. */
  function FromToken(t: Option<Token>): (p: MParam)
    ensures p.empty <==> t.None?
    ensures t.Some? ==> p.name == Strip(t.value.text) && p.range == CreateFromToken(t.value)
    ensures p.types == [] && p.level == 1
  {
    if t.None? then Fake(true) else MParam(Strip(t.value.text), false, [], 1, CreateFromToken(t.value))
  }

  /** create(field, level): a field without a name is empty() (at level 1);
      otherwise it is named, put at the given level and typed by its typesBlock. */
  function FromField(f: FieldCtx, level: int): (p: MParam)
    ensures f.parameterName.None? ==> p == Fake(true)
    ensures f.parameterName.Some? ==> !p.empty && p.level == level && p.name == Strip(NodeText(f.parameterName.value))
  {
    if f.parameterName.None? then Fake(true)
    else
      var fld := FromNode(f.parameterName).(level := level);
      if f.typesBlock.None? then fld
      else AddTypes(fld, f.typesBlock.value.typ, f.typesBlock.value.typeDescription)
  }

  /** An update that leaves the parameter as it was except for types appended at the end. */
  predicate Appends(p: MParam, r: MParam) {
    r.name == p.name && r.empty == p.empty && r.level == p.level && r.range == p.range
    && |p.types| <= |r.types| && r.types[..|p.types|] == p.types
  }

  /** A new type named by a token, at a level. */
  function TypeFromToken(t: Token, variant: Variant, level: int): (r: MType)
    ensures r.name == t.text && r.level == level && r.variant == variant
    ensures r.description == [] && r.fields == [] && r.valueType.None? && r.hyperlink == Hyperlinks.EMPTY
    ensures r.range.startLine == r.range.endLine == t.line - 1
      && r.range.endCharacter - r.range.startCharacter == (if t.tokenType == EOF then 0 else |t.text|)
  {
    TokenRangeWidth(t);
    MType(t.text, [], level, [], variant, None, Hyperlinks.EMPTY, CreateFromToken(t))
  }

  /** A new hyperlink type: named by the link, linking to it with its parameters ("" without). */
  function TypeFromHyperlink(h: HyperlinkCtx, level: int): (r: MType)
    ensures r.name == h.link.text && r.level == level && r.variant == HYPERLINK
    ensures r.description == [] && r.fields == [] && r.valueType.None?
    ensures h.link.text == [] ==> r.hyperlink == Hyperlinks.EMPTY
    ensures h.link.text != [] ==>
      r.hyperlink.link == h.link.text && r.hyperlink.params == (if h.linkParams.Some? then h.linkParams.value.text else [])
  {
    var params := if h.linkParams.Some? then h.linkParams.value.text else [];
    MType(h.link.text, [], level, [], HYPERLINK, None, Hyperlinks.Create(Some(h.link.text), Some(params)),
          CreateFromToken(h.link))
  }

  function Described(t: MType, desc: Option<TypeDescriptionCtx>): (r: MType)
    ensures r.name == t.name && r.level == t.level && r.variant == t.variant && r.range == t.range
    ensures t.fields == [] ==>
      r.fields == [] && r.description == t.description + (if desc.Some? then [Strip(desc.value.text)] else [])
  {
    if desc.Some? then TypeAddDescription(t, desc.value) else t
  }

  /** addType(type, description): nothing for an empty parameter or a missing type. */
  function AddTypes(p: MParam, typ: Option<TypeCtx>, desc: Option<TypeDescriptionCtx>): (r: MParam)
    ensures Appends(p, r)
    ensures p.empty || typ.None? ==> r == p
  {
    if p.empty || typ.None? then p else AddTypeCtx(p, typ.value, desc)
  }

  /** The dispatch of addType over the alternatives of the type rule. */
  function AddTypeCtx(p: MParam, t: TypeCtx, desc: Option<TypeDescriptionCtx>): (r: MParam)
    ensures Appends(p, r)
    decreases t, 1, 0
  {
    match t.alt
    case ListTypes(_) => AddListItems(p, t, 0, desc)
    case HyperlinkTypeAlt(h) => AddHyperlinkType(p, h, desc)
    case SimpleTypeAlt(n) => AddSimple(p, n, desc)
    case CollectionTypeAlt(c) => AddCollection(p, c, desc)
    case OtherTypeAlt => p
  }

  /** The loop over a type list from entry i on: only the first entry gets the description. */
  function AddListItems(p: MParam, t: TypeCtx, i: nat, desc: Option<TypeDescriptionCtx>): (r: MParam)
    requires t.alt.ListTypes? && i <= |t.alt.listType|
    ensures Appends(p, r)
    decreases t, 0, |t.alt.listType| - i
  {
    if i == |t.alt.listType| then p
    else AddListItems(AddListItem(p, t.alt.listType[i], desc), t, i + 1, None)
  }

  function AddListItem(p: MParam, item: ListTypeCtx, desc: Option<TypeDescriptionCtx>): (r: MParam)
    ensures Appends(p, r)
    decreases item, 0, 0
  {
    match item
    case ListHyperlink(h) => AddHyperlinkType(p, h, desc)
    case ListSimple(n) => AddSimple(p, n, desc)
    case ListCollection(c) => AddCollection(p, c, desc)
    case ListOther => p
  }

  /** addType(HyperlinkTypeContext): only when the hyperlink is there. */
  function AddHyperlinkType(p: MParam, h: HyperlinkTypeCtx, desc: Option<TypeDescriptionCtx>): (r: MParam)
    ensures Appends(p, r)
  {
    if h.hyperlink.None? then p else AddHyperlink(p, h.hyperlink.value, desc)
  }

  /** addType(HyperlinkContext) */
  function AddHyperlink(p: MParam, h: HyperlinkCtx, desc: Option<TypeDescriptionCtx>): (r: MParam)
    ensures Appends(p, r) && |r.types| == |p.types| + 1
  {
    p.(types := p.types + [Described(TypeFromHyperlink(h, p.level), desc)])
  }

  /** addType(SimpleTypeContext) */
  function AddSimple(p: MParam, typeName: Token, desc: Option<TypeDescriptionCtx>): (r: MParam)
    ensures Appends(p, r) && |r.types| == |p.types| + 1
  {
    p.(types := p.types + [Described(TypeFromToken(typeName, SIMPLE, p.level), desc)])
  }

  /** addType(CollectionTypeContext): the value type is read first, then the description. */
  function AddCollection(p: MParam, c: CollectionTypeCtx, desc: Option<TypeDescriptionCtx>): (r: MParam)
    ensures Appends(p, r) && |r.types| == |p.types| + 1
    decreases c, 0, 0
  {
    var t := TypeFromToken(c.collection, COLLECTION, p.level);
    var withValue := if c.valueType.Some? then TypeAddValueType(t, c.valueType.value) else t;
    p.(types := p.types + [Described(withValue, desc)])
  }

  /** TempParameterTypeData.addType(type): the value type is the last type a fresh
      parameter reads from it, if it reads any. */
  function TypeAddValueType(t: MType, vt: TypeCtx): (r: MType)
    ensures r == t.(valueType := r.valueType)
    decreases vt, 2, 0
  {
    var fake := AddTypeCtx(Fake(false), vt, None);
    if fake.types == [] then t else t.(valueType := Some(fake.types[|fake.types| - 1]))
  }

  function LastType(p: MParam): MType
    requires p.types != []
  {
    p.types[|p.types| - 1]
  }

  function WithLastType(p: MParam, t: MType): MParam
    requires p.types != []
  {
    p.(types := p.types[|p.types| - 1 := t])
  }

  function LastField(t: MType): MParam
    requires t.fields != []
  {
    t.fields[|t.fields| - 1]
  }

  function WithLastField(t: MType, f: MParam): MType
    requires t.fields != []
  {
    t.(fields := t.fields[|t.fields| - 1 := f])
  }

  /** addTypeDescription(ctx) on a parameter: goes to its last type, if any. */
  function ParamAddDescription(p: MParam, d: TypeDescriptionCtx): (r: MParam)
    ensures r.name == p.name && r.empty == p.empty && r.level == p.level && r.range == p.range
    ensures |r.types| == |p.types|
    ensures p.types != [] ==>
      r.types[..|p.types| - 1] == p.types[..|p.types| - 1]
      && LastType(r).name == LastType(p).name && LastType(r).level == LastType(p).level
    decreases p
  {
    if p.types == [] then p else WithLastType(p, TypeAddDescription(LastType(p), d))
  }

  /** addTypeDescription(ctx) on a type: to its last field if it has one, else a new stripped description line. */
  function TypeAddDescription(t: MType, d: TypeDescriptionCtx): (r: MType)
    ensures r.name == t.name && r.level == t.level && r.variant == t.variant && r.range == t.range
    ensures r.valueType == t.valueType && r.hyperlink == t.hyperlink
    ensures |r.fields| == |t.fields|
    ensures t.fields == [] ==> r.description == t.description + [Strip(d.text)]
    ensures t.fields != [] ==> r.description == t.description && r.fields[..|t.fields| - 1] == t.fields[..|t.fields| - 1]
    decreases t
  {
    if t.fields != [] then WithLastField(t, ParamAddDescription(LastField(t), d))
    else t.(description := t.description + [Strip(d.text)])
  }

  function ParamAddText(p: MParam, s: string): (r: MParam)
    ensures r.name == p.name && r.empty == p.empty && r.level == p.level && r.range == p.range
    ensures |r.types| == |p.types|
    ensures p.types != [] ==>
      r.types[..|p.types| - 1] == p.types[..|p.types| - 1]
      && LastType(r).name == LastType(p).name && LastType(r).level == LastType(p).level
    decreases p
  {
    if p.types == [] then p else WithLastType(p, TypeAddText(LastType(p), s))
  }

  /** addTypeDescription(String): an empty text is ignored at every level. */
  function TypeAddText(t: MType, s: string): (r: MType)
    ensures r.name == t.name && r.level == t.level && r.variant == t.variant && r.range == t.range
    ensures r.valueType == t.valueType && r.hyperlink == t.hyperlink
    ensures |r.fields| == |t.fields|
    ensures s == [] ==> r == t
    ensures s != [] && t.fields == [] ==> r.description == t.description + [Strip(s)]
    ensures t.fields != [] ==> r.description == t.description && r.fields[..|t.fields| - 1] == t.fields[..|t.fields| - 1]
    decreases t
  {
    if s == [] then t
    else if t.fields != [] then WithLastField(t, ParamAddText(LastField(t), s))
    else t.(description := t.description + [Strip(s)])
  }

  function ParamAddField(p: MParam, f: FieldCtx): (r: MParam)
    ensures r.name == p.name && r.empty == p.empty && r.level == p.level && r.range == p.range
    ensures |r.types| == |p.types|
    ensures p.types != [] ==>
      r.types[..|p.types| - 1] == p.types[..|p.types| - 1]
      && LastType(r).name == LastType(p).name && LastType(r).level == LastType(p).level
    decreases p
  {
    if p.types == [] then p else WithLastType(p, TypeAddField(LastType(p), f))
  }

  /** addField on a type: a star run as long as the type's level opens a field;
      any other run goes to the last field; a line without a star is dropped. */
  function TypeAddField(t: MType, f: FieldCtx): (r: MType)
    ensures r.name == t.name && r.level == t.level && r.variant == t.variant && r.range == t.range
    ensures r.valueType == t.valueType && r.hyperlink == t.hyperlink
    ensures r.description == t.description
    ensures |t.fields| <= |r.fields| <= |t.fields| + 1
    ensures t.fields != [] ==> r.fields[..|t.fields| - 1] == t.fields[..|t.fields| - 1]
    decreases t
  {
    if f.star.None? then t
    else if |f.star.value.text| == t.level then t.(fields := t.fields + [FromField(f, t.level + 1)])
    else if t.fields != [] then WithLastField(t, ParamAddField(LastField(t), f))
    else t
  }

  // ---------------------------------------------------------------------------
  // Building the descriptions
  // ---------------------------------------------------------------------------

  /** A range moved from the comment's text into the module's: lines move by
      lineShift; characters move by charShift when the range starts on the
      comment's first line. */
  function ShiftRange(r: SimpleRange, lineShift: int, charShift: int): (s: SimpleRange)
    ensures s.startLine == r.startLine + lineShift && s.endLine == r.endLine + lineShift
    ensures r.startLine == 0 ==> s.startCharacter == r.startCharacter + charShift && s.endCharacter == r.endCharacter + charShift
    ensures r.startLine != 0 ==> s.startCharacter == r.startCharacter && s.endCharacter == r.endCharacter
    ensures s.endLine - s.startLine == r.endLine - r.startLine
    ensures s.endCharacter - s.startCharacter == r.endCharacter - r.startCharacter
    ensures lineShift == 0 && charShift == 0 ==> s == r
  {
    var d := if r.startLine == 0 then charShift else 0;
    SimpleRange(r.startLine + lineShift, r.startCharacter + d, r.endLine + lineShift, r.endCharacter + d)
  }

  /** TempParameterData.build */
  function BuildParam(p: MParam, lineShift: int, charShift: int): (r: ParameterDescription)
    ensures r.name == Strip(p.name) && |r.types| == |p.types|
    ensures r.element == DescriptionElement(ShiftRange(p.range, lineShift, charShift), PARAMETER_NAME)
    ensures forall i :: 0 <= i < |p.types| ==> r.types[i] == BuildType(p.types[i], lineShift, charShift)
    decreases p
  {
    NewParameter(p.name, DescriptionElement(ShiftRange(p.range, lineShift, charShift), PARAMETER_NAME),
                 seq(|p.types|, i requires 0 <= i < |p.types| => BuildType(p.types[i], lineShift, charShift)))
  }

  /** TempParameterTypeData.build: one description class per variant; a
      collection without a value type gets SimpleTypeDescription.EMPTY. */
  function BuildType(t: MType, lineShift: int, charShift: int): (r: TypeDescription)
    ensures VariantOf(r) == t.variant
    ensures t.variant == SIMPLE && IsBlank(t.name) && IsBlank(Join(t.description, "\n")) ==> r == Descriptions.EMPTY
    ensures !(t.variant == SIMPLE && IsBlank(t.name) && IsBlank(Join(t.description, "\n"))) ==>
      r.element == DescriptionElement(ShiftRange(t.range, lineShift, charShift), TYPE_NAME)
      && r.description == Strip(Join(t.description, "\n"))
      && r.fields == seq(|t.fields|, i requires 0 <= i < |t.fields| => BuildParam(t.fields[i], lineShift, charShift))
    ensures t.variant == COLLECTION ==>
      r.collectionName == Strip(t.name)
      && r.valueType == (if t.valueType.None? then Descriptions.EMPTY else BuildType(t.valueType.value, lineShift, charShift))
    ensures t.variant == HYPERLINK ==> r.hyperlink == t.hyperlink && r.name == t.hyperlink.link
    decreases t
  {
    var fieldList := seq(|t.fields|, i requires 0 <= i < |t.fields| => BuildParam(t.fields[i], lineShift, charShift));
    var element := DescriptionElement(ShiftRange(t.range, lineShift, charShift), TYPE_NAME);
    var description := Join(t.description, "\n");
    match t.variant
    case SIMPLE => CreateSimple(t.name, element, description, fieldList)
    case COLLECTION =>
      var valueType := if t.valueType.None? then Descriptions.EMPTY else BuildType(t.valueType.value, lineShift, charShift);
      CreateCollection(t.name, element, description, valueType, fieldList)
    case HYPERLINK => CreateHyperlink(t.hyperlink, element, description, fieldList)
  }

  // ---------------------------------------------------------------------------
  // The builder and the visitor's state
  // ---------------------------------------------------------------------------

  /** The MethodDescription builder: a value never set is None; the parameters
      list collects every parameter added. */
  datatype MethodDescription = MethodDescription(
    description: Option<string>,
    links: Option<seq<Hyperlinks.Hyperlink>>,
    range: Option<SimpleRange>,
    deprecated: bool,
    deprecationInfo: Option<string>,
    purposeDescription: Option<string>,
    examples: Option<string>,
    parameters: seq<ParameterDescription>,
    returnedValue: Option<seq<TypeDescription>>)

  const NewBuilder := MethodDescription(None, None, None, false, None, None, None, [], None)

  /** What the visitor changes as it goes. */
  datatype ReaderState = ReaderState(builder: MethodDescription, lastReadParam: Option<MParam>, typeLevel: int)

  function OpenParam(st: ReaderState): MParam
    requires st.lastReadParam.Some?
  {
    st.lastReadParam.value
  }

  function WithParam(st: ReaderState, p: MParam): ReaderState {
    st.(lastReadParam := Some(p))
  }

  /** The builder after the open parameter, if it is not empty, has been added. */
  function Flushed(st: ReaderState, lineShift: int, charShift: int): (b: MethodDescription)
    requires st.lastReadParam.Some?
    ensures b == st.builder.(parameters := b.parameters)
    ensures st.builder.parameters <= b.parameters
    ensures |b.parameters| == |st.builder.parameters| + (if OpenParam(st).empty then 0 else 1)
  {
    if OpenParam(st).empty then st.builder
    else st.builder.(parameters := st.builder.parameters + [BuildParam(OpenParam(st), lineShift, charShift)])
  }

  /** visitTypesBlock */
  function VisitedTypesBlock(st: ReaderState, tb: TypesBlockCtx): (r: ReaderState)
    requires st.lastReadParam.Some?
    ensures r.builder == st.builder && r.typeLevel == st.typeLevel && r.lastReadParam.Some?
    ensures Appends(OpenParam(st), OpenParam(r))
  {
    if OpenParam(st).empty then st else WithParam(st, AddTypes(OpenParam(st), tb.typ, tb.typeDescription))
  }

  /** visitParameter: the open parameter is added, the new one opened, then its typesBlock visited. */
  function VisitedParameter(st: ReaderState, ctx: ParameterCtx, lineShift: int, charShift: int): (r: ReaderState)
    requires st.lastReadParam.Some?
    ensures r.builder == Flushed(st, lineShift, charShift) && r.typeLevel == st.typeLevel && r.lastReadParam.Some?
    ensures Appends(FromNode(ctx.parameterName), OpenParam(r))
  {
    var next := ReaderState(Flushed(st, lineShift, charShift), Some(FromNode(ctx.parameterName)), st.typeLevel);
    if ctx.typesBlock.Some? then VisitedTypesBlock(next, ctx.typesBlock.value) else next
  }

  /** visitField */
  function VisitedField(st: ReaderState, f: FieldCtx): (r: ReaderState)
    requires st.lastReadParam.Some?
    ensures r.builder == st.builder && r.typeLevel == st.typeLevel && r.lastReadParam.Some?
    ensures var p, q := OpenParam(st), OpenParam(r);
      q.name == p.name && q.empty == p.empty && q.level == p.level && |q.types| == |p.types|
  {
    WithParam(st, ParamAddField(OpenParam(st), f))
  }

  /** visitTypeDescription: describes the open parameter; with none open, the
      first hyperlink opens a parameter typed by that hyperlink, or else a lone
      first token opens one. */
  function VisitedTypeDescription(st: ReaderState, d: TypeDescriptionCtx): (r: ReaderState)
    requires st.lastReadParam.Some?
    ensures r.builder == st.builder && r.typeLevel == st.typeLevel && r.lastReadParam.Some?
    ensures !OpenParam(st).empty ==>
      var p, q := OpenParam(st), OpenParam(r);
      q.name == p.name && q.empty == p.empty && q.level == p.level && |q.types| == |p.types|
  {
    var p := OpenParam(st);
    if !p.empty then WithParam(st, ParamAddDescription(p, d))
    else if d.hyperlinks != [] then
      var link := d.hyperlinks[0];
      WithParam(st, AddHyperlink(FromToken(Some(link.link)), link, Some(d)))
    else if d.first.Some? && d.second.None? then WithParam(st, FromToken(d.first))
    else st
  }

  function VisitedParameterString(st: ReaderState, s: ParameterString, lineShift: int, charShift: int): (r: ReaderState)
    requires st.lastReadParam.Some?
    ensures r.lastReadParam.Some? && r.typeLevel == st.typeLevel
    ensures st.builder.parameters <= r.builder.parameters
    ensures !s.ParameterLine? ==> r.builder == st.builder
  {
    match s
    case ParameterLine(ctx) => VisitedParameter(st, ctx, lineShift, charShift)
    case TypesLine(tb) => VisitedTypesBlock(st, tb)
    case DescriptionLine(d) => VisitedTypeDescription(st, d)
    case FieldLine(f) => VisitedField(st, f)
    case EmptyLine => st
  }

  function ParameterStringsVisited(st: ReaderState, strings: seq<ParameterString>, lineShift: int, charShift: int): (r: ReaderState)
    requires st.lastReadParam.Some?
    ensures r.lastReadParam.Some? && r.typeLevel == st.typeLevel
    ensures st.builder.parameters <= r.builder.parameters
  {
    if strings == [] then st
    else VisitedParameterString(ParameterStringsVisited(st, strings[..|strings| - 1], lineShift, charShift),
                                strings[|strings| - 1], lineShift, charShift)
  }

  /** visitParametersBlock: a block without lines adds nothing; otherwise the
      lines are read from an empty parameter and the last one is added at the end. */
  function VisitedParametersBlock(st: ReaderState, strings: seq<ParameterString>, lineShift: int, charShift: int): (r: ReaderState)
    ensures r.builder == st.builder.(parameters := r.builder.parameters) && r.typeLevel == st.typeLevel
    ensures st.builder.parameters <= r.builder.parameters
    ensures strings == [] ==> r == st
  {
    if strings == [] then st
    else
      ParameterStringsKeepBuilder(WithParam(st, Fake(true)), strings, lineShift, charShift);
      var read := ParameterStringsVisited(WithParam(st, Fake(true)), strings, lineShift, charShift);
      read.(builder := Flushed(read, lineShift, charShift))
  }

  /** The text a returns-value line of another indentation adds: `type - description`. */
  function ContinuationText(typ: Option<TypeCtx>, desc: Option<TypeDescriptionCtx>): (r: string)
    ensures typ.Some? ==> typ.value.text <= r
    ensures desc.Some? ==> var d := desc.value.text;
      |r| >= |d| + 3 && r[|r| - |d| - 3..] == " - " + d
    ensures r == [] <==> (typ.None? || typ.value.text == []) && desc.None?
  {
    (if typ.Some? then typ.value.text else []) + (if desc.Some? then " - " + desc.value.text else [])
  }

  /** visitReturnsValue: the first line fixes the indentation; a line of that
      indentation adds types, any other continues the description. */
  function VisitedReturnsValue(st: ReaderState, startPart: string, typ: Option<TypeCtx>,
                               desc: Option<TypeDescriptionCtx>): (r: ReaderState)
    requires st.lastReadParam.Some?
    ensures r.typeLevel == st.typeLevel || r.typeLevel == |startPart|
    ensures r.builder == st.builder && r.lastReadParam.Some?
    ensures var p, q := OpenParam(st), OpenParam(r);
      q.name == p.name && q.empty == p.empty && q.level == p.level && |q.types| >= |p.types|
  {
    var currentLevel := |startPart|;
    if st.typeLevel == -1 || currentLevel == st.typeLevel then
      ReaderState(st.builder, Some(AddTypes(OpenParam(st), typ, desc)), currentLevel)
    else WithParam(st, ParamAddText(OpenParam(st), ContinuationText(typ, desc)))
  }

  function VisitedReturnsValuesString(st: ReaderState, s: ReturnsValuesString): (r: ReaderState)
    requires st.lastReadParam.Some?
    ensures r.builder == st.builder && r.lastReadParam.Some?
    ensures !OpenParam(st).empty ==> !OpenParam(r).empty && OpenParam(r).name == OpenParam(st).name
  {
    match s.line
    case ReturnsValue(typ, desc) => VisitedReturnsValue(st, s.startPart, typ, desc)
    case ReturnsTypes(tb) => VisitedTypesBlock(st, tb)
    case ReturnsDescription(d) => VisitedTypeDescription(st, d)
    case ReturnsField(f) => VisitedField(st, f)
    case ReturnsEmpty => st
  }

  function ReturnsStringsVisited(st: ReaderState, strings: seq<ReturnsValuesString>): (r: ReaderState)
    requires st.lastReadParam.Some?
    ensures r.lastReadParam.Some?
    ensures !OpenParam(st).empty ==> !OpenParam(r).empty && OpenParam(r).name == OpenParam(st).name
  {
    if strings == [] then st
    else VisitedReturnsValuesString(ReturnsStringsVisited(st, strings[..|strings| - 1]), strings[|strings| - 1])
  }

  /** visitReturnsValuesBlock: the lines fill a fresh non-empty parameter whose types are the returned value. */
  function VisitedReturnsValuesBlock(st: ReaderState, strings: seq<ReturnsValuesString>, lineShift: int, charShift: int): (r: ReaderState)
    ensures r.builder == st.builder.(returnedValue := r.builder.returnedValue) && r.builder.returnedValue.Some?
    ensures r.lastReadParam.Some? && OpenParam(r).name == [] && !OpenParam(r).empty
  {
    ReturnsStringsKeepBuilder(ReaderState(st.builder, Some(Fake(false)), -1), strings);
    var read := ReturnsStringsVisited(ReaderState(st.builder, Some(Fake(false)), -1), strings);
    read.(builder := read.builder.(returnedValue := Some(BuildParam(OpenParam(read), lineShift, charShift).types)))
  }

  /** The lines of a description or examples block, each read with extractText, joined by "\n" and stripped. */
  function BlockText(strings: seq<RuleNode>): (r: string)
    ensures IsStripped(r)
  {
    Strip(Join(ExtractedLines(strings), "\n"))
  }

  /** Each line read with extractText. */
  function ExtractedLines(strings: seq<RuleNode>): (r: seq<string>)
    ensures |r| == |strings| && forall k :: 0 <= k < |strings| ==> r[k] == ExtractedText(Some(strings[k]))
  {
    seq(|strings|, k requires 0 <= k < |strings| => ExtractedText(Some(strings[k])))
  }

  function VisitedBlock(st: ReaderState, b: Block, lineShift: int, charShift: int): (r: ReaderState)
    ensures r.builder.description == st.builder.description && r.builder.links == st.builder.links
      && r.builder.range == st.builder.range
    ensures b.OtherBlock? || (b.ParametersBlock? && b.parameterStrings == []) ==> r == st
  {
    match b
    case DescriptionBlock(strings) => st.(builder := st.builder.(purposeDescription := Some(BlockText(strings))))
    case ParametersBlock(strings) => VisitedParametersBlock(st, strings, lineShift, charShift)
    case ReturnsValuesBlock(strings) => VisitedReturnsValuesBlock(st, strings, lineShift, charShift)
    case ExamplesBlock(strings) => st.(builder := st.builder.(examples := Some(BlockText(strings))))
    case DeprecateBlock(dd) =>
      var info := if dd.Some? then Strip(NodeText(dd.value)) else [];
      st.(builder := st.builder.(deprecated := true, deprecationInfo := Some(info)))
    case OtherBlock => st
  }

  function BlocksVisited(st: ReaderState, blocks: seq<Block>, lineShift: int, charShift: int): (r: ReaderState)
    ensures r.builder.description == st.builder.description && r.builder.links == st.builder.links
      && r.builder.range == st.builder.range
  {
    if blocks == [] then st
    else VisitedBlock(BlocksVisited(st, blocks[..|blocks| - 1], lineShift, charShift), blocks[|blocks| - 1], lineShift, charShift)
  }

  datatype BlockKind = DescriptionKind | ParametersKind | ReturnsKind | ExamplesKind | DeprecateKind | OtherKind

  function KindOf(b: Block): BlockKind {
    match b
    case DescriptionBlock(_) => DescriptionKind
    case ParametersBlock(_) => ParametersKind
    case ReturnsValuesBlock(_) => ReturnsKind
    case ExamplesBlock(_) => ExamplesKind
    case DeprecateBlock(_) => DeprecateKind
    case OtherBlock => OtherKind
  }

  /** Whether the comment has a block of the given kind (ctx.returnsValuesBlock() != null and the like). */
  predicate HasBlock(blocks: seq<Block>, kind: BlockKind) {
    exists k :: 0 <= k < |blocks| && KindOf(blocks[k]) == kind
  }

  /** visitMethodDescription: without a returns block the returned value is the empty list; then every block in order. */
  function VisitedMethodDescription(st: ReaderState, ctx: MethodDescriptionCtx, lineShift: int, charShift: int): (r: ReaderState)
    ensures r.builder.description == st.builder.description && r.builder.links == st.builder.links
      && r.builder.range == st.builder.range
    ensures r.builder.returnedValue.Some?
    ensures !HasBlock(ctx.blocks, ReturnsKind) ==> r.builder.returnedValue == Some([])
  {
    var start := if HasBlock(ctx.blocks, ReturnsKind) then st else st.(builder := st.builder.(returnedValue := Some([])));
    BlocksVisitedEffect(start, ctx.blocks, lineShift, charShift);
    BlocksVisited(start, ctx.blocks, lineShift, charShift)
  }

  /** The shifts a comment at the given range reads its positions with. */
  function LineShift(range: SimpleRange): (s: int)
    ensures s >= 0 && (range.startLine >= 1 ==> s == range.startLine - 1)
  {
    if range.startLine - 1 > 0 then range.startLine - 1 else 0
  }

  function CharShift(range: SimpleRange): (s: int)
    ensures s >= 0 && (range.startCharacter >= 1 ==> s == range.startCharacter - 1)
  {
    if range.startCharacter - 1 > 0 then range.startCharacter - 1 else 0
  }

  /** read(comments) as a value, with the description parser as a parameter. */
  function MethodDescriptionOf(comments: seq<Token>, parse: string -> MethodDescriptionCtx): (d: MethodDescription)
    ensures d.description == Some(Strip(CommentText(comments))) && d.range == Some(CreateFromTokens(comments))
    ensures d.links == Some(ReadLinks(parse(CommentText(comments)).tree))
    ensures d.returnedValue.Some?
  {
    var text := CommentText(comments);
    var range := CreateFromTokens(comments);
    var ast := parse(text);
    var builder := NewBuilder.(description := Some(Strip(text)), links := Some(ReadLinks(ast.tree)), range := Some(range));
    VisitedMethodDescription(ReaderState(builder, None, -1), ast, LineShift(range), CharShift(range)).builder
  }

  // ---------------------------------------------------------------------------
  // The visitor
  // ---------------------------------------------------------------------------

  class MethodDescriptionReader {
    var builder: MethodDescription
    const lineShift: int
    const firstLineCharShift: int
    var lastReadParam: Option<MParam>
    var typeLevel: int

    function State(): ReaderState
      reads this
    {
      ReaderState(builder, lastReadParam, typeLevel)
    }

    constructor (range: SimpleRange)
      ensures builder == NewBuilder && lastReadParam == None && typeLevel == -1
      ensures lineShift == LineShift(range) && firstLineCharShift == CharShift(range)
    {
      builder := NewBuilder;
      lineShift := if range.startLine - 1 > 0 then range.startLine - 1 else 0;
      firstLineCharShift := if range.startCharacter - 1 > 0 then range.startCharacter - 1 else 0;
      lastReadParam := None;
      typeLevel := -1;
    }

    method VisitMethodDescription(ctx: MethodDescriptionCtx)
      modifies this
      ensures State() == VisitedMethodDescription(old(State()), ctx, lineShift, firstLineCharShift)
    {
      if !HasBlock(ctx.blocks, ReturnsKind) {
        builder := builder.(returnedValue := Some([]));
      }
      ghost var start := State();
      var i := 0;
      while i < |ctx.blocks|
        invariant 0 <= i <= |ctx.blocks|
        invariant State() == BlocksVisited(start, ctx.blocks[..i], lineShift, firstLineCharShift)
      {
        assert ctx.blocks[..i + 1][..i] == ctx.blocks[..i];
        VisitBlock(ctx.blocks[i]);
        i := i + 1;
      }
      assert ctx.blocks[..i] == ctx.blocks;
    }

    method VisitBlock(b: Block)
      modifies this
      ensures State() == VisitedBlock(old(State()), b, lineShift, firstLineCharShift)
    {
      match b {
        case DescriptionBlock(strings) =>
          builder := builder.(purposeDescription := Some(BlockText(strings)));
        case ParametersBlock(strings) =>
          VisitParametersBlock(strings);
        case ReturnsValuesBlock(strings) =>
          VisitReturnsValuesBlock(strings);
        case ExamplesBlock(strings) =>
          builder := builder.(examples := Some(BlockText(strings)));
        case DeprecateBlock(dd) =>
          builder := builder.(deprecated := true);
          if dd.Some? {
            builder := builder.(deprecationInfo := Some(Strip(NodeText(dd.value))));
          } else {
            builder := builder.(deprecationInfo := Some([]));
          }
        case OtherBlock =>
      }
    }

    method AddOpenParameter()
      requires lastReadParam.Some?
      modifies this
      ensures builder == Flushed(old(State()), lineShift, firstLineCharShift)
      ensures lastReadParam == old(lastReadParam) && typeLevel == old(typeLevel)
    {
      if !lastReadParam.value.empty {
        builder := builder.(parameters := builder.parameters + [BuildParam(lastReadParam.value, lineShift, firstLineCharShift)]);
      }
    }

    method VisitParametersBlock(strings: seq<ParameterString>)
      modifies this
      ensures State() == VisitedParametersBlock(old(State()), strings, lineShift, firstLineCharShift)
    {
      if |strings| == 0 {
        return;
      }
      lastReadParam := Some(Fake(true));
      ghost var start := State();
      var i := 0;
      while i < |strings|
        invariant 0 <= i <= |strings|
        invariant State() == ParameterStringsVisited(start, strings[..i], lineShift, firstLineCharShift)
      {
        assert strings[..i + 1][..i] == strings[..i];
        VisitParameterString(strings[i]);
        i := i + 1;
      }
      assert strings[..i] == strings;
      AddOpenParameter();
    }

    method VisitParameterString(s: ParameterString)
      requires lastReadParam.Some?
      modifies this
      ensures State() == VisitedParameterString(old(State()), s, lineShift, firstLineCharShift)
    {
      match s {
        case ParameterLine(ctx) => VisitParameter(ctx);
        case TypesLine(tb) => VisitTypesBlock(tb);
        case DescriptionLine(d) => VisitTypeDescription(d);
        case FieldLine(f) => VisitField(f);
        case EmptyLine =>
      }
    }

    method VisitParameter(ctx: ParameterCtx)
      requires lastReadParam.Some?
      modifies this
      ensures State() == VisitedParameter(old(State()), ctx, lineShift, firstLineCharShift)
    {
      AddOpenParameter();
      lastReadParam := Some(FromNode(ctx.parameterName));
      if ctx.typesBlock.Some? {
        VisitTypesBlock(ctx.typesBlock.value);
      }
    }

    method VisitTypesBlock(tb: TypesBlockCtx)
      requires lastReadParam.Some?
      modifies this
      ensures State() == VisitedTypesBlock(old(State()), tb)
    {
      if lastReadParam.value.empty {
        return;
      }
      lastReadParam := Some(AddTypes(lastReadParam.value, tb.typ, tb.typeDescription));
    }

    method VisitField(f: FieldCtx)
      requires lastReadParam.Some?
      modifies this
      ensures State() == VisitedField(old(State()), f)
    {
      lastReadParam := Some(ParamAddField(lastReadParam.value, f));
    }

    method VisitTypeDescription(d: TypeDescriptionCtx)
      requires lastReadParam.Some?
      modifies this
      ensures State() == VisitedTypeDescription(old(State()), d)
    {
      if !lastReadParam.value.empty {
        lastReadParam := Some(ParamAddDescription(lastReadParam.value, d));
        return;
      }
      if |d.hyperlinks| > 0 {
        var link := d.hyperlinks[0];
        var named := FromToken(Some(link.link));
        lastReadParam := Some(AddHyperlink(named, link, Some(d)));
        return;
      }
      if d.first.Some? && d.second.None? {
        lastReadParam := Some(FromToken(d.first));
      }
    }

    method VisitReturnsValuesBlock(strings: seq<ReturnsValuesString>)
      modifies this
      ensures State() == VisitedReturnsValuesBlock(old(State()), strings, lineShift, firstLineCharShift)
    {
      lastReadParam := Some(Fake(false));
      typeLevel := -1;
      ghost var start := State();
      var i := 0;
      while i < |strings|
        invariant 0 <= i <= |strings|
        invariant State() == ReturnsStringsVisited(start, strings[..i])
      {
        assert strings[..i + 1][..i] == strings[..i];
        VisitReturnsValuesString(strings[i]);
        i := i + 1;
      }
      assert strings[..i] == strings;
      builder := builder.(returnedValue := Some(BuildParam(lastReadParam.value, lineShift, firstLineCharShift).types));
    }

    method VisitReturnsValuesString(s: ReturnsValuesString)
      requires lastReadParam.Some?
      modifies this
      ensures State() == VisitedReturnsValuesString(old(State()), s)
    {
      match s.line {
        case ReturnsValue(typ, desc) => VisitReturnsValue(s.startPart, typ, desc);
        case ReturnsTypes(tb) => VisitTypesBlock(tb);
        case ReturnsDescription(d) => VisitTypeDescription(d);
        case ReturnsField(f) => VisitField(f);
        case ReturnsEmpty =>
      }
    }

    method VisitReturnsValue(startPart: string, typ: Option<TypeCtx>, desc: Option<TypeDescriptionCtx>)
      requires lastReadParam.Some?
      modifies this
      ensures State() == VisitedReturnsValue(old(State()), startPart, typ, desc)
    {
      var currentLevel := |startPart|;
      if typeLevel == -1 || currentLevel == typeLevel {
        lastReadParam := Some(AddTypes(lastReadParam.value, typ, desc));
        typeLevel := currentLevel;
      } else {
        var text := [];
        if typ.Some? {
          text := text + typ.value.text;
        }
        if desc.Some? {
          text := text + " - " + desc.value.text;
        }
        assert text == ContinuationText(typ, desc);
        lastReadParam := Some(ParamAddText(lastReadParam.value, text));
      }
    }
  }

  /** read(comments): the comment's text is parsed, a reader at the comment's
      range sets the description, links and range, and visits the tree. */
  method Read(comments: seq<Token>, parse: string -> MethodDescriptionCtx) returns (d: MethodDescription)
    ensures d == MethodDescriptionOf(comments, parse)
  {
    var text := CommentText(comments);
    var range := CreateFromTokens(comments);
    var ast := parse(text);
    var reader := new MethodDescriptionReader(range);
    reader.builder := reader.builder.(description := Some(Strip(text)), links := Some(ReadLinks(ast.tree)), range := Some(range));
    reader.VisitMethodDescription(ast);
    d := reader.builder;
  }

  // ---------------------------------------------------------------------------
  // What a read produces
  // ---------------------------------------------------------------------------

  lemma HasBlockSnoc(blocks: seq<Block>, kind: BlockKind)
    requires blocks != []
    ensures HasBlock(blocks, kind) <==> HasBlock(blocks[..|blocks| - 1], kind) || KindOf(blocks[|blocks| - 1]) == kind
  {
    var init := blocks[..|blocks| - 1];
    if HasBlock(blocks, kind) && KindOf(blocks[|blocks| - 1]) != kind {
      var k :| 0 <= k < |blocks| && KindOf(blocks[k]) == kind;
      assert init[k] == blocks[k];
    }
    if HasBlock(init, kind) {
      var k :| 0 <= k < |init| && KindOf(init[k]) == kind;
      assert blocks[k] == init[k];
    }
  }

  /** Within a parameters block only the parameters list of the builder changes. */
  lemma {:induction false} ParameterStringsKeepBuilder(st: ReaderState, strings: seq<ParameterString>, lineShift: int, charShift: int)
    requires st.lastReadParam.Some?
    ensures var r := ParameterStringsVisited(st, strings, lineShift, charShift);
      r.builder == st.builder.(parameters := r.builder.parameters)
  {
    if strings != [] {
      ParameterStringsKeepBuilder(st, strings[..|strings| - 1], lineShift, charShift);
    }
  }

  /** Within a returns block the builder does not change at all. */
  lemma {:induction false} ReturnsStringsKeepBuilder(st: ReaderState, strings: seq<ReturnsValuesString>)
    requires st.lastReadParam.Some?
    ensures ReturnsStringsVisited(st, strings).builder == st.builder
  {
    if strings != [] {
      ReturnsStringsKeepBuilder(st, strings[..|strings| - 1]);
    }
  }

  /** Each block sets only its own part of the builder: a deprecate block the
      deprecation, a description block the purpose, an examples block the
      examples, a parameters block the parameters, a returns block the
      returned value (always to some list). */
  lemma VisitedBlockEffect(st: ReaderState, b: Block, lineShift: int, charShift: int)
    ensures var before := st.builder;
      var r := VisitedBlock(st, b, lineShift, charShift).builder;
      r.description == before.description && r.links == before.links && r.range == before.range
      && r.deprecated == (before.deprecated || b.DeprecateBlock?)
      && (!b.DeprecateBlock? ==> r.deprecationInfo == before.deprecationInfo)
      && (b.DeprecateBlock? ==> r.deprecationInfo.Some? && IsStripped(r.deprecationInfo.value))
      && (!b.DescriptionBlock? ==> r.purposeDescription == before.purposeDescription)
      && (b.DescriptionBlock? ==> r.purposeDescription.Some? && IsStripped(r.purposeDescription.value))
      && (!b.ExamplesBlock? ==> r.examples == before.examples)
      && (b.ExamplesBlock? ==> r.examples.Some? && IsStripped(r.examples.value))
      && (!b.ParametersBlock? ==> r.parameters == before.parameters)
      && (!b.ReturnsValuesBlock? ==> r.returnedValue == before.returnedValue)
      && (b.ReturnsValuesBlock? ==> r.returnedValue.Some?)
  {
    match b
    case ParametersBlock(strings) =>
      if strings != [] {
        ParameterStringsKeepBuilder(WithParam(st, Fake(true)), strings, lineShift, charShift);
      }
    case ReturnsValuesBlock(strings) =>
      ReturnsStringsKeepBuilder(ReaderState(st.builder, Some(Fake(false)), -1), strings);
    case _ =>
  }

  /** The blocks in order: the header stays, the deprecation flag is set exactly
      when some block is a deprecate block, and each part of the builder is
      touched only by a block of its own kind. */
  lemma {:induction false} BlocksVisitedEffect(st: ReaderState, blocks: seq<Block>, lineShift: int, charShift: int)
    ensures var before := st.builder;
      var r := BlocksVisited(st, blocks, lineShift, charShift).builder;
      r.description == before.description && r.links == before.links && r.range == before.range
      && (r.deprecated <==> before.deprecated || HasBlock(blocks, DeprecateKind))
      && (!HasBlock(blocks, DeprecateKind) ==> r.deprecationInfo == before.deprecationInfo)
      && (!HasBlock(blocks, DescriptionKind) ==> r.purposeDescription == before.purposeDescription)
      && (HasBlock(blocks, DescriptionKind) ==> r.purposeDescription.Some? && IsStripped(r.purposeDescription.value))
      && (!HasBlock(blocks, ExamplesKind) ==> r.examples == before.examples)
      && (HasBlock(blocks, ExamplesKind) ==> r.examples.Some? && IsStripped(r.examples.value))
      && (!HasBlock(blocks, ParametersKind) ==> r.parameters == before.parameters)
      && (!HasBlock(blocks, ReturnsKind) ==> r.returnedValue == before.returnedValue)
      && (HasBlock(blocks, ReturnsKind) ==> r.returnedValue.Some?)
  {
    if blocks != [] {
      var init := blocks[..|blocks| - 1];
      var last := blocks[|blocks| - 1];
      BlocksVisitedEffect(st, init, lineShift, charShift);
      VisitedBlockEffect(BlocksVisited(st, init, lineShift, charShift), last, lineShift, charShift);
      HasBlockSnoc(blocks, DeprecateKind);
      HasBlockSnoc(blocks, DescriptionKind);
      HasBlockSnoc(blocks, ExamplesKind);
      HasBlockSnoc(blocks, ParametersKind);
      HasBlockSnoc(blocks, ReturnsKind);
    } else {
      assert !HasBlock(blocks, DeprecateKind) && !HasBlock(blocks, DescriptionKind) && !HasBlock(blocks, ExamplesKind);
      assert !HasBlock(blocks, ParametersKind) && !HasBlock(blocks, ReturnsKind);
    }
  }

  /** read(comments): the description is the whole comment text stripped, the
      links are those of the tree and the range spans the comment's tokens;
      the returned value is always a list, empty without a returns block; a
      method is deprecated exactly when the comment has a deprecate block;
      without a parameters block it has no parameters; the purpose and the
      examples are present exactly when their block is, and stripped. */
  lemma MethodDescriptionRead(comments: seq<Token>, parse: string -> MethodDescriptionCtx)
    ensures var text := CommentText(comments);
      var blocks := parse(text).blocks;
      var d := MethodDescriptionOf(comments, parse);
      d.description == Some(Strip(text)) && d.links == Some(ReadLinks(parse(text).tree))
      && d.range == Some(CreateFromTokens(comments))
      && d.returnedValue.Some? && (!HasBlock(blocks, ReturnsKind) ==> d.returnedValue == Some([]))
      && (d.deprecated <==> HasBlock(blocks, DeprecateKind))
      && (!HasBlock(blocks, DeprecateKind) ==> d.deprecationInfo == None)
      && (!HasBlock(blocks, ParametersKind) ==> d.parameters == [])
      && (d.purposeDescription.Some? <==> HasBlock(blocks, DescriptionKind))
      && (d.purposeDescription.Some? ==> IsStripped(d.purposeDescription.value))
      && (d.examples.Some? <==> HasBlock(blocks, ExamplesKind))
      && (d.examples.Some? ==> IsStripped(d.examples.value))
  {
    var text := CommentText(comments);
    var range := CreateFromTokens(comments);
    var ast := parse(text);
    var builder := NewBuilder.(description := Some(Strip(text)), links := Some(ReadLinks(ast.tree)), range := Some(range));
    var st := ReaderState(builder, None, -1);
    var start := if HasBlock(ast.blocks, ReturnsKind) then st else st.(builder := st.builder.(returnedValue := Some([])));
    BlocksVisitedEffect(start, ast.blocks, LineShift(range), CharShift(range));
  }

  // ---------------------------------------------------------------------------
  // The parameters block
  // ---------------------------------------------------------------------------

  /** Every line of the block names a parameter. */
  predicate NamedParameterLines(strings: seq<ParameterString>) {
    forall k :: 0 <= k < |strings| ==> strings[k].ParameterLine? && strings[k].parameter.parameterName.Some?
  }

  function LineName(s: ParameterString): string
    requires s.ParameterLine? && s.parameter.parameterName.Some?
  {
    Strip(NodeText(s.parameter.parameterName.value))
  }

  /** A named parameter line adds the parameter open before it and opens a new one named by the line. */
  lemma NamedLineStep(pre: ReaderState, s: ParameterString, lineShift: int, charShift: int)
    requires pre.lastReadParam.Some? && s.ParameterLine? && s.parameter.parameterName.Some?
    ensures var r := VisitedParameterString(pre, s, lineShift, charShift);
      r.builder == Flushed(pre, lineShift, charShift) && !OpenParam(r).empty && OpenParam(r).name == LineName(s)
  {
  }

  /** The names of the lines, in order. */
  function LineNames(strings: seq<ParameterString>): (r: seq<string>)
    requires NamedParameterLines(strings)
    ensures |r| == |strings| && forall k :: 0 <= k < |strings| ==> r[k] == LineName(strings[k])
  {
    seq(|strings|, k requires 0 <= k < |strings| => LineName(strings[k]))
  }

  /** The names of built parameters, in order. */
  function ParameterNames(ps: seq<ParameterDescription>): (r: seq<string>)
    ensures |r| == |ps| && forall k :: 0 <= k < |ps| ==> r[k] == ps[k].name
  {
    seq(|ps|, k requires 0 <= k < |ps| => ps[k].name)
  }

  lemma ParameterNamesSnoc(ps: seq<ParameterDescription>, p: ParameterDescription)
    ensures ParameterNames(ps + [p]) == ParameterNames(ps) + [p.name]
  {
  }

  lemma LineNamesSnoc(strings: seq<ParameterString>)
    requires strings != [] && NamedParameterLines(strings)
    ensures NamedParameterLines(strings[..|strings| - 1])
    ensures LineNames(strings) == LineNames(strings[..|strings| - 1]) + [LineName(strings[|strings| - 1])]
  {
  }

  /** The fold's last step over a named line: the parameter open before it is
      flushed and the line's parameter opened. */
  lemma NamedFoldStep(st: ReaderState, strings: seq<ParameterString>, lineShift: int, charShift: int)
    requires st.lastReadParam.Some? && strings != [] && NamedParameterLines(strings)
    ensures var pre := ParameterStringsVisited(st, strings[..|strings| - 1], lineShift, charShift);
      var r := ParameterStringsVisited(st, strings, lineShift, charShift);
      r.builder == Flushed(pre, lineShift, charShift)
      && !OpenParam(r).empty && OpenParam(r).name == LineName(strings[|strings| - 1])
  {
    var n := |strings|;
    assert strings[n - 1].ParameterLine? && strings[n - 1].parameter.parameterName.Some?;
    var pre := ParameterStringsVisited(st, strings[..n - 1], lineShift, charShift);
    NamedLineStep(pre, strings[n - 1], lineShift, charShift);
  }

  /** Flushing a non-empty open parameter appends it, built, under its stripped name. */
  lemma FlushedAppends(pre: ReaderState, lineShift: int, charShift: int)
    requires pre.lastReadParam.Some? && !OpenParam(pre).empty
    ensures var f := Flushed(pre, lineShift, charShift).parameters;
      |f| == |pre.builder.parameters| + 1 && f[..|pre.builder.parameters|] == pre.builder.parameters
      && ParameterNames(f) == ParameterNames(pre.builder.parameters) + [Strip(OpenParam(pre).name)]
  {
    var p := BuildParam(OpenParam(pre), lineShift, charShift);
    assert Flushed(pre, lineShift, charShift).parameters == pre.builder.parameters + [p];
    ParameterNamesSnoc(pre.builder.parameters, p);
  }

  /** The names after position m of a list, and of that list extended by one. */
  lemma NamesAfterSnoc(xs: seq<ParameterDescription>, ys: seq<ParameterDescription>, m: nat)
    requires m <= |xs| && |ys| == |xs| + 1 && ys[..|xs|] == xs
    ensures ys[..m] == xs[..m]
    ensures ParameterNames(ys[m..]) == ParameterNames(xs[m..]) + [ys[|xs|].name]
  {
    assert ys == xs + [ys[|xs|]];
    assert ys[m..] == xs[m..] + [ys[|xs|]];
    ParameterNamesSnoc(xs[m..], ys[|xs|]);
  }

  /** The lines fold to a state whose open parameter is named by the last line,
      with one parameter added for every line before it. */
  lemma {:induction false} NamedParametersFold(st: ReaderState, strings: seq<ParameterString>, lineShift: int, charShift: int)
    requires st.lastReadParam.Some? && strings != [] && NamedParameterLines(strings)
    ensures var r := ParameterStringsVisited(st, strings, lineShift, charShift);
      var before := Flushed(st, lineShift, charShift).parameters;
      !OpenParam(r).empty && OpenParam(r).name == LineName(strings[|strings| - 1])
      && |r.builder.parameters| == |before| + |strings| - 1
      && r.builder.parameters[..|before|] == before
      && ParameterNames(r.builder.parameters[|before|..]) == LineNames(strings[..|strings| - 1])
  {
    var n := |strings|;
    var init := strings[..n - 1];
    var pre := ParameterStringsVisited(st, init, lineShift, charShift);
    var r := ParameterStringsVisited(st, strings, lineShift, charShift);
    NamedFoldStep(st, strings, lineShift, charShift);
    if n == 1 {
      assert init == [] && pre == st;
    } else {
      var before := Flushed(st, lineShift, charShift).parameters;
      assert NamedParameterLines(init);
      NamedParametersFold(st, init, lineShift, charShift);
      FlushedAppends(pre, lineShift, charShift);
      StripIdempotent(NodeText(strings[n - 2].parameter.parameterName.value));
      NamesAfterSnoc(pre.builder.parameters, r.builder.parameters, |before|);
      LineNamesSnoc(init);
    }
  }

  /** A block of named parameter lines yields one parameter per line, in order,
      each named by its line, after those already read. */
  lemma NamedParameters(st: ReaderState, strings: seq<ParameterString>, lineShift: int, charShift: int)
    requires NamedParameterLines(strings)
    ensures var before := st.builder.parameters;
      var r := VisitedParametersBlock(st, strings, lineShift, charShift).builder.parameters;
      |r| == |before| + |strings| && r[..|before|] == before
      && ParameterNames(r[|before|..]) == LineNames(strings)
  {
    if strings != [] {
      var n := |strings|;
      var start := WithParam(st, Fake(true));
      NamedParametersFold(start, strings, lineShift, charShift);
      var read := ParameterStringsVisited(start, strings, lineShift, charShift);
      assert VisitedParametersBlock(st, strings, lineShift, charShift).builder.parameters
        == Flushed(read, lineShift, charShift).parameters;
      assert Flushed(start, lineShift, charShift).parameters == st.builder.parameters;
      FlushedAppends(read, lineShift, charShift);
      StripIdempotent(NodeText(strings[n - 1].parameter.parameterName.value));
      NamesAfterSnoc(read.builder.parameters, Flushed(read, lineShift, charShift).parameters, |st.builder.parameters|);
      LineNamesSnoc(strings);
    }
  }

  /** A line without lines to read adds nothing. */
  lemma EmptyParametersBlock(st: ReaderState, lineShift: int, charShift: int)
    ensures VisitedParametersBlock(st, [], lineShift, charShift) == st
  {
  }

  /** A description line with no parameter open whose first hyperlink has a
      link opens a parameter named by that link, whose one type is that
      hyperlink described by the line; built, the parameter links there. */
  lemma HyperlinkOpensLinkedParameter(st: ReaderState, d: TypeDescriptionCtx, lineShift: int, charShift: int)
    requires st.lastReadParam.Some? && OpenParam(st).empty
    requires d.hyperlinks != [] && d.hyperlinks[0].link.text != []
    ensures var r := VisitedTypeDescription(st, d);
      var link := d.hyperlinks[0];
      var built := BuildParam(OpenParam(r), lineShift, charShift);
      r.builder == st.builder && !OpenParam(r).empty
      && built.name == Strip(link.link.text)
      && IsHyperlink(built) && Link(built) == Hyperlinks.Hyperlink(link.link.text, TokenText(link.linkParams))
      && built.types[0].description == Strip(d.text)
  {
    var link := d.hyperlinks[0];
    var t := TypeFromHyperlink(link, 1);
    assert Described(t, Some(d)).description == [Strip(d.text)];
    StripIdempotent(link.link.text);
    StripIdempotent(d.text);
  }

  /** With no parameter open and no hyperlink, a description made of a single
      token opens a parameter named by that token, still without types. */
  lemma LoneTokenOpensParameter(st: ReaderState, d: TypeDescriptionCtx)
    requires st.lastReadParam.Some? && OpenParam(st).empty
    requires d.hyperlinks == [] && d.first.Some? && d.second.None?
    ensures var r := VisitedTypeDescription(st, d);
      r.builder == st.builder && !OpenParam(r).empty && OpenParam(r).name == Strip(d.first.value.text)
      && OpenParam(r).types == []
  {
  }

  /** With no parameter open, any other description line changes nothing. */
  lemma UnmatchedDescriptionIgnored(st: ReaderState, d: TypeDescriptionCtx)
    requires st.lastReadParam.Some? && OpenParam(st).empty
    requires d.hyperlinks == [] && !(d.first.Some? && d.second.None?)
    ensures VisitedTypeDescription(st, d) == st
  {
  }

  /** With a parameter open, a description line describes its last type: the
      stripped text is appended there when that type has no fields. */
  lemma DescriptionGoesToLastType(st: ReaderState, d: TypeDescriptionCtx)
    requires st.lastReadParam.Some? && !OpenParam(st).empty && OpenParam(st).types != []
    requires LastType(OpenParam(st)).fields == []
    ensures var p := OpenParam(st);
      var r := OpenParam(VisitedTypeDescription(st, d));
      r.name == p.name && |r.types| == |p.types| && r.types[..|p.types| - 1] == p.types[..|p.types| - 1]
      && LastType(r).description == LastType(p).description + [Strip(d.text)]
  {
    var p := OpenParam(st);
    var t := TypeAddDescription(LastType(p), d);
    assert t.description == LastType(p).description + [Strip(d.text)];
    assert OpenParam(VisitedTypeDescription(st, d)) == WithLastType(p, t);
    assert WithLastType(p, t).types[..|p.types| - 1] == p.types[..|p.types| - 1];
  }

  /** A types line while no parameter is open is ignored. */
  lemma TypesIgnoredWhileClosed(st: ReaderState, tb: TypesBlockCtx)
    requires st.lastReadParam.Some? && OpenParam(st).empty
    ensures VisitedTypesBlock(st, tb) == st
  {
  }

  // ---------------------------------------------------------------------------
  // Type lists
  // ---------------------------------------------------------------------------

  predicate SimpleItems(items: seq<ListTypeCtx>) {
    forall k :: 0 <= k < |items| ==> items[k].ListSimple?
  }

  /** The types a list of simple entries from position i on stands for: one
      simple type per entry at the given level, only the first described. */
  function SimpleListTypes(items: seq<ListTypeCtx>, i: nat, level: int, desc: Option<TypeDescriptionCtx>): (r: seq<MType>)
    requires i <= |items| && SimpleItems(items)
    ensures |r| == |items| - i
  {
    seq(|items| - i, k requires 0 <= k < |items| - i =>
      Described(TypeFromToken(items[i + k].typeName, SIMPLE, level), if k == 0 then desc else None))
  }

  lemma SimpleListTypesCons(items: seq<ListTypeCtx>, i: nat, level: int, desc: Option<TypeDescriptionCtx>)
    requires i < |items| && SimpleItems(items)
    ensures SimpleListTypes(items, i, level, desc)
      == [Described(TypeFromToken(items[i].typeName, SIMPLE, level), desc)] + SimpleListTypes(items, i + 1, level, None)
  {
    var a := SimpleListTypes(items, i, level, desc);
    var b := [Described(TypeFromToken(items[i].typeName, SIMPLE, level), desc)] + SimpleListTypes(items, i + 1, level, None);
    forall k | 0 <= k < |a|
      ensures a[k] == b[k]
    {
      if k > 0 {
        assert b[k] == SimpleListTypes(items, i + 1, level, None)[k - 1];
      }
    }
  }

  /** A simple entry appends its type and leaves the rest of the list to the next entry. */
  lemma SimpleItemStep(p: MParam, t: TypeCtx, i: nat, desc: Option<TypeDescriptionCtx>)
    requires t.alt.ListTypes? && i < |t.alt.listType| && t.alt.listType[i].ListSimple?
    ensures var q := AddSimple(p, t.alt.listType[i].typeName, desc);
      AddListItems(p, t, i, desc) == AddListItems(q, t, i + 1, None)
      && q.types == p.types + [Described(TypeFromToken(t.alt.listType[i].typeName, SIMPLE, p.level), desc)]
      && q.level == p.level
  {
  }

  /** addType over the entries of a list from position i on appends exactly
      their simple types, the first one described. */
  lemma {:induction false} ListItemsDescribedOnce(p: MParam, t: TypeCtx, i: nat, desc: Option<TypeDescriptionCtx>)
    requires t.alt.ListTypes? && i <= |t.alt.listType| && SimpleItems(t.alt.listType)
    ensures AddListItems(p, t, i, desc).types == p.types + SimpleListTypes(t.alt.listType, i, p.level, desc)
    decreases |t.alt.listType| - i
  {
    var items := t.alt.listType;
    if i < |items| {
      assert items[i].ListSimple?;
      var x := Described(TypeFromToken(items[i].typeName, SIMPLE, p.level), desc);
      var q := AddSimple(p, items[i].typeName, desc);
      SimpleItemStep(p, t, i, desc);
      ListItemsDescribedOnce(q, t, i + 1, None);
      SimpleListTypesCons(items, i, p.level, desc);
      var rest := SimpleListTypes(items, i + 1, p.level, None);
      assert p.types + [x] + rest == p.types + ([x] + rest);
    } else {
      assert SimpleListTypes(items, i, p.level, desc) == [];
    }
  }

  /** addType over a list of simple types adds one type per entry, in order and
      at the parameter's level; only the first entry gets the description. */
  lemma OnlyFirstListTypeDescribed(p: MParam, t: TypeCtx, desc: Option<TypeDescriptionCtx>)
    requires !p.empty && t.alt.ListTypes? && SimpleItems(t.alt.listType)
    ensures var items := t.alt.listType;
      var r := AddTypes(p, Some(t), desc);
      |r.types| == |p.types| + |items| && r.types[..|p.types|] == p.types
      && forall k :: 0 <= k < |items| ==>
        r.types[|p.types| + k].name == items[k].typeName.text && r.types[|p.types| + k].variant == SIMPLE
        && r.types[|p.types| + k].level == p.level
        && r.types[|p.types| + k].description == (if k == 0 && desc.Some? then [Strip(desc.value.text)] else [])
  {
    var r := AddTypes(p, Some(t), desc);
    assert r == AddListItems(p, t, 0, desc);
    ListItemsDescribedOnce(p, t, 0, desc);
    var items := t.alt.listType;
    var added := SimpleListTypes(items, 0, p.level, desc);
    forall k | 0 <= k < |items|
      ensures r.types[|p.types| + k].name == items[k].typeName.text && r.types[|p.types| + k].variant == SIMPLE
      ensures r.types[|p.types| + k].level == p.level
      ensures r.types[|p.types| + k].description == (if k == 0 && desc.Some? then [Strip(desc.value.text)] else [])
    {
      var x := TypeFromToken(items[k].typeName, SIMPLE, p.level);
      assert r.types[|p.types| + k] == added[k] == Described(x, if k == 0 then desc else None);
      assert x.fields == [] && x.description == [] && x.name == items[k].typeName.text;
    }
  }

  /** An entry read without a description appends only undescribed types. */
  lemma ItemUndescribed(p: MParam, item: ListTypeCtx, k: int)
    requires |p.types| <= k < |AddListItem(p, item, None).types|
    ensures AddListItem(p, item, None).types[k].description == []
  {
    match item
    case ListHyperlink(h) =>
    case ListSimple(n) =>
    case ListCollection(c) =>
      var t := TypeFromToken(c.collection, COLLECTION, p.level);
      var withValue := if c.valueType.Some? then TypeAddValueType(t, c.valueType.value) else t;
      assert withValue.description == [];
    case ListOther =>
  }

  /** The entries of a list read without a description, from position i on,
      append only undescribed types, whatever their kind. */
  lemma {:induction false} LaterEntriesUndescribed(p: MParam, t: TypeCtx, i: nat, k: int)
    requires t.alt.ListTypes? && i <= |t.alt.listType|
    requires |p.types| <= k < |AddListItems(p, t, i, None).types|
    ensures AddListItems(p, t, i, None).types[k].description == []
    decreases |t.alt.listType| - i
  {
    if i < |t.alt.listType| {
      var q := AddListItem(p, t.alt.listType[i], None);
      var r := AddListItems(q, t, i + 1, None);
      assert AddListItems(p, t, i, None) == r;
      if k < |q.types| {
        ItemUndescribed(p, t.alt.listType[i], k);
        assert r.types[k] == r.types[..|q.types|][k] == q.types[k];
      } else {
        LaterEntriesUndescribed(q, t, i + 1, k);
      }
    }
  }

  /** Of the types a list adds, only those of its first entry can carry the
      line's description, whatever the entries' kinds; when the first entry
      adds no type, the description is lost. */
  lemma OnlyFirstEntryDescribed(p: MParam, t: TypeCtx, desc: Option<TypeDescriptionCtx>)
    requires !p.empty && t.alt.ListTypes? && t.alt.listType != []
    ensures var q, r := AddListItem(p, t.alt.listType[0], desc), AddTypes(p, Some(t), desc);
      forall k :: |q.types| <= k < |r.types| ==> r.types[k].description == []
    ensures var q, r := AddListItem(p, t.alt.listType[0], desc), AddTypes(p, Some(t), desc);
      q == p ==> forall k :: |p.types| <= k < |r.types| ==> r.types[k].description == []
  {
    var q := AddListItem(p, t.alt.listType[0], desc);
    assert AddTypes(p, Some(t), desc) == AddTypeCtx(p, t, desc) == AddListItems(p, t, 0, desc);
    assert AddListItems(p, t, 0, desc) == AddListItems(q, t, 1, None);
    forall k | |q.types| <= k < |AddListItems(q, t, 1, None).types|
      ensures AddListItems(q, t, 1, None).types[k].description == []
    {
      LaterEntriesUndescribed(q, t, 1, k);
    }
  }

  /** A collection read without a value type is built with the empty value
      type and named by its collection name alone. */
  lemma CollectionWithoutValueType(t: MType, lineShift: int, charShift: int)
    requires t.variant == COLLECTION && t.valueType.None?
    ensures var r := BuildType(t, lineShift, charShift);
      r.valueType == Descriptions.EMPTY && r.name == r.collectionName == Strip(t.name)
  {
    var r := BuildType(t, lineShift, charShift);
    CollectionOfEmpty(t.name, r.element, Join(t.description, "\n"), r.fields);
  }

  // ---------------------------------------------------------------------------
  // Nesting levels
  // ---------------------------------------------------------------------------

  /** The nesting invariant: a parameter's types are at its level, a named
      field sits one level below its type, and an empty parameter has no types. */
  predicate ParamLevelsOk(p: MParam)
    decreases p
  {
    (p.empty ==> p.types == [])
    && forall i :: 0 <= i < |p.types| ==> p.types[i].level == p.level && TypeLevelsOk(p.types[i])
  }

  predicate TypeLevelsOk(t: MType)
    decreases t
  {
    forall i :: 0 <= i < |t.fields| ==>
      (!t.fields[i].empty ==> t.fields[i].level == t.level + 1) && ParamLevelsOk(t.fields[i])
  }

  /** The types an update appends are new: at the parameter's level, without fields. */
  predicate AppendsFresh(p: MParam, r: MParam) {
    Appends(p, r) && forall i :: |p.types| <= i < |r.types| ==> r.types[i].level == p.level && r.types[i].fields == []
  }

  lemma AddListItemFresh(p: MParam, item: ListTypeCtx, desc: Option<TypeDescriptionCtx>)
    ensures AppendsFresh(p, AddListItem(p, item, desc))
  {
    var q := AddListItem(p, item, desc);
    match item
    case ListHyperlink(h) =>
      if h.hyperlink.Some? {
        assert q.types == p.types + [Described(TypeFromHyperlink(h.hyperlink.value, p.level), desc)];
      }
    case ListSimple(n) =>
      assert q.types == p.types + [Described(TypeFromToken(n, SIMPLE, p.level), desc)];
    case ListCollection(c) =>
      CollectionItemFresh(p, c, desc);
    case ListOther =>
  }

  /** A collection entry appends one type at the parameter's level, without fields. */
  lemma CollectionItemFresh(p: MParam, c: CollectionTypeCtx, desc: Option<TypeDescriptionCtx>)
    ensures var q := AddCollection(p, c, desc);
      q.types[|p.types|].level == p.level && q.types[|p.types|].fields == []
  {
    var t := TypeFromToken(c.collection, COLLECTION, p.level);
    var withValue := if c.valueType.Some? then TypeAddValueType(t, c.valueType.value) else t;
    assert withValue.fields == [] && withValue.level == p.level;
    assert AddCollection(p, c, desc).types[|p.types|] == Described(withValue, desc);
  }

  lemma {:induction false} AddListItemsFresh(p: MParam, t: TypeCtx, i: nat, desc: Option<TypeDescriptionCtx>)
    requires t.alt.ListTypes? && i <= |t.alt.listType|
    ensures AppendsFresh(p, AddListItems(p, t, i, desc))
    decreases |t.alt.listType| - i
  {
    if i < |t.alt.listType| {
      var q := AddListItem(p, t.alt.listType[i], desc);
      AddListItemFresh(p, t.alt.listType[i], desc);
      AddListItemsFresh(q, t, i + 1, None);
      var r := AddListItems(q, t, i + 1, None);
      assert forall j :: |p.types| <= j < |q.types| ==> r.types[j] == q.types[j];
    }
  }

  lemma AddTypesFresh(p: MParam, typ: Option<TypeCtx>, desc: Option<TypeDescriptionCtx>)
    ensures AppendsFresh(p, AddTypes(p, typ, desc))
  {
    if !p.empty && typ.Some? {
      match typ.value.alt
      case ListTypes(_) => AddListItemsFresh(p, typ.value, 0, desc);
      case HyperlinkTypeAlt(h) => AddListItemFresh(p, ListHyperlink(h), desc);
      case SimpleTypeAlt(n) => AddListItemFresh(p, ListSimple(n), desc);
      case CollectionTypeAlt(c) => AddListItemFresh(p, ListCollection(c), desc);
      case OtherTypeAlt =>
    }
  }

  lemma AddTypesOk(p: MParam, typ: Option<TypeCtx>, desc: Option<TypeDescriptionCtx>)
    requires ParamLevelsOk(p)
    ensures ParamLevelsOk(AddTypes(p, typ, desc))
  {
    AddTypesFresh(p, typ, desc);
    var r := AddTypes(p, typ, desc);
    assert forall i :: 0 <= i < |p.types| ==> r.types[i] == p.types[i];
  }

  lemma FromFieldOk(f: FieldCtx, level: int)
    ensures ParamLevelsOk(FromField(f, level))
    ensures !FromField(f, level).empty ==> FromField(f, level).level == level
  {
    if f.parameterName.Some? && f.typesBlock.Some? {
      AddTypesOk(FromNode(f.parameterName).(level := level), f.typesBlock.value.typ, f.typesBlock.value.typeDescription);
    }
  }

  lemma WithLastTypeOk(p: MParam, t: MType)
    requires ParamLevelsOk(p) && p.types != [] && TypeLevelsOk(t) && t.level == p.level
    ensures ParamLevelsOk(WithLastType(p, t))
  {
    var r := WithLastType(p, t);
    assert forall i :: 0 <= i < |r.types| ==> r.types[i] == if i == |p.types| - 1 then t else p.types[i];
  }

  lemma WithLastFieldOk(t: MType, f: MParam)
    requires TypeLevelsOk(t) && t.fields != [] && ParamLevelsOk(f) && (!f.empty ==> f.level == t.level + 1)
    ensures TypeLevelsOk(WithLastField(t, f))
  {
    var r := WithLastField(t, f);
    assert forall i :: 0 <= i < |r.fields| ==> r.fields[i] == if i == |t.fields| - 1 then f else t.fields[i];
  }

  lemma {:induction false} ParamAddDescriptionOk(p: MParam, d: TypeDescriptionCtx)
    requires ParamLevelsOk(p)
    ensures var r := ParamAddDescription(p, d);
      ParamLevelsOk(r) && r.name == p.name && r.empty == p.empty && r.level == p.level && |r.types| == |p.types|
    decreases p
  {
    if p.types != [] {
      TypeAddDescriptionOk(LastType(p), d);
      WithLastTypeOk(p, TypeAddDescription(LastType(p), d));
    }
  }

  lemma {:induction false} TypeAddDescriptionOk(t: MType, d: TypeDescriptionCtx)
    requires TypeLevelsOk(t)
    ensures var r := TypeAddDescription(t, d);
      TypeLevelsOk(r) && r.name == t.name && r.level == t.level && r.variant == t.variant
    decreases t
  {
    if t.fields != [] {
      ParamAddDescriptionOk(LastField(t), d);
      WithLastFieldOk(t, ParamAddDescription(LastField(t), d));
    }
  }

  lemma {:induction false} ParamAddTextOk(p: MParam, s: string)
    requires ParamLevelsOk(p)
    ensures var r := ParamAddText(p, s);
      ParamLevelsOk(r) && r.name == p.name && r.empty == p.empty && r.level == p.level && |r.types| == |p.types|
    decreases p
  {
    if p.types != [] {
      TypeAddTextOk(LastType(p), s);
      WithLastTypeOk(p, TypeAddText(LastType(p), s));
    }
  }

  lemma {:induction false} TypeAddTextOk(t: MType, s: string)
    requires TypeLevelsOk(t)
    ensures var r := TypeAddText(t, s);
      TypeLevelsOk(r) && r.name == t.name && r.level == t.level && r.variant == t.variant
    decreases t
  {
    if s != [] && t.fields != [] {
      ParamAddTextOk(LastField(t), s);
      WithLastFieldOk(t, ParamAddText(LastField(t), s));
    }
  }

  lemma {:induction false} ParamAddFieldOk(p: MParam, f: FieldCtx)
    requires ParamLevelsOk(p)
    ensures var r := ParamAddField(p, f);
      ParamLevelsOk(r) && r.name == p.name && r.empty == p.empty && r.level == p.level && |r.types| == |p.types|
    decreases p
  {
    if p.types != [] {
      TypeAddFieldOk(LastType(p), f);
      WithLastTypeOk(p, TypeAddField(LastType(p), f));
    }
  }

  /** A field line without a star run changes nothing, however deep the nesting. */
  lemma {:induction false} StarlessFieldIgnored(p: MParam, f: FieldCtx)
    requires f.star.None?
    ensures ParamAddField(p, f) == p
  {
    if p.types != [] {
      assert TypeAddField(LastType(p), f) == LastType(p);
      assert p.types[|p.types| - 1 := LastType(p)] == p.types;
    }
  }

  /** A star run as long as the type's level adds a field one level deeper after the type's fields. */
  lemma FieldAtTypeLevel(t: MType, f: FieldCtx)
    requires f.star.Some? && |f.star.value.text| == t.level
    ensures TypeAddField(t, f).fields == t.fields + [FromField(f, t.level + 1)]
  {
  }

  /** A star run of another length than the type's level goes to the type's
      last field, and is dropped when the type has no field. */
  lemma FieldDelegated(t: MType, f: FieldCtx)
    requires f.star.Some? && |f.star.value.text| != t.level
    ensures t.fields != [] ==> TypeAddField(t, f) == WithLastField(t, ParamAddField(LastField(t), f))
    ensures t.fields == [] ==> TypeAddField(t, f) == t
  {
  }

  /** A star run as long as the type's level opens a field one level down;
      deeper runs go to the last field, which keeps the nesting. */
  lemma {:induction false} TypeAddFieldOk(t: MType, f: FieldCtx)
    requires TypeLevelsOk(t)
    ensures var r := TypeAddField(t, f);
      TypeLevelsOk(r) && r.name == t.name && r.level == t.level && r.variant == t.variant
    decreases t
  {
    if f.star.Some? {
      if |f.star.value.text| == t.level {
        var nf := FromField(f, t.level + 1);
        FromFieldOk(f, t.level + 1);
        var r := TypeAddField(t, f);
        assert forall i :: 0 <= i < |r.fields| ==> r.fields[i] == if i == |t.fields| then nf else t.fields[i];
      } else if t.fields != [] {
        ParamAddFieldOk(LastField(t), f);
        WithLastFieldOk(t, ParamAddField(LastField(t), f));
      }
    }
  }

  /** Every line of a parameters block keeps the open parameter well nested. */
  lemma ParameterStringOk(st: ReaderState, s: ParameterString, lineShift: int, charShift: int)
    requires st.lastReadParam.Some? && ParamLevelsOk(OpenParam(st))
    ensures ParamLevelsOk(OpenParam(VisitedParameterString(st, s, lineShift, charShift)))
  {
    match s
    case ParameterLine(ctx) =>
      if ctx.typesBlock.Some? {
        AddTypesOk(FromNode(ctx.parameterName), ctx.typesBlock.value.typ, ctx.typesBlock.value.typeDescription);
      }
    case TypesLine(tb) => AddTypesOk(OpenParam(st), tb.typ, tb.typeDescription);
    case DescriptionLine(d) => TypeDescriptionOk(st, d);
    case FieldLine(f) => ParamAddFieldOk(OpenParam(st), f);
    case EmptyLine =>
  }

  /** A description line keeps the open parameter well nested, whether it
      describes that parameter or opens one. */
  lemma TypeDescriptionOk(st: ReaderState, d: TypeDescriptionCtx)
    requires st.lastReadParam.Some? && ParamLevelsOk(OpenParam(st))
    ensures ParamLevelsOk(OpenParam(VisitedTypeDescription(st, d)))
  {
    if !OpenParam(st).empty {
      ParamAddDescriptionOk(OpenParam(st), d);
    } else if d.hyperlinks != [] {
      var r := OpenParam(VisitedTypeDescription(st, d));
      assert r.types[0].fields == [];
    }
  }

  /** A returns-value line keeps the collecting parameter well nested, whether it adds types or text. */
  lemma ReturnsValueOk(st: ReaderState, startPart: string, typ: Option<TypeCtx>, desc: Option<TypeDescriptionCtx>)
    requires st.lastReadParam.Some? && ParamLevelsOk(OpenParam(st))
    ensures ParamLevelsOk(OpenParam(VisitedReturnsValue(st, startPart, typ, desc)))
  {
    AddTypesOk(OpenParam(st), typ, desc);
    ParamAddTextOk(OpenParam(st), ContinuationText(typ, desc));
  }

  lemma {:induction false} ParameterStringsOk(st: ReaderState, strings: seq<ParameterString>, lineShift: int, charShift: int)
    requires st.lastReadParam.Some? && ParamLevelsOk(OpenParam(st))
    ensures ParamLevelsOk(OpenParam(ParameterStringsVisited(st, strings, lineShift, charShift)))
  {
    if strings != [] {
      ParameterStringsOk(st, strings[..|strings| - 1], lineShift, charShift);
      ParameterStringOk(ParameterStringsVisited(st, strings[..|strings| - 1], lineShift, charShift),
                        strings[|strings| - 1], lineShift, charShift);
    }
  }

  /** Every line of a returns block keeps the open parameter well nested. */
  lemma ReturnsValuesStringOk(st: ReaderState, s: ReturnsValuesString)
    requires st.lastReadParam.Some? && ParamLevelsOk(OpenParam(st))
    ensures ParamLevelsOk(OpenParam(VisitedReturnsValuesString(st, s)))
  {
    match s.line
    case ReturnsValue(typ, desc) => ReturnsValueOk(st, s.startPart, typ, desc);
    case ReturnsTypes(tb) => AddTypesOk(OpenParam(st), tb.typ, tb.typeDescription);
    case ReturnsDescription(d) => TypeDescriptionOk(st, d);
    case ReturnsField(f) => ParamAddFieldOk(OpenParam(st), f);
    case ReturnsEmpty =>
  }

  lemma {:induction false} ReturnsStringsOk(st: ReaderState, strings: seq<ReturnsValuesString>)
    requires st.lastReadParam.Some? && ParamLevelsOk(OpenParam(st))
    ensures ParamLevelsOk(OpenParam(ReturnsStringsVisited(st, strings)))
  {
    if strings != [] {
      ReturnsStringsOk(st, strings[..|strings| - 1]);
      ReturnsValuesStringOk(ReturnsStringsVisited(st, strings[..|strings| - 1]), strings[|strings| - 1]);
    }
  }

  /** Reading a whole parameters or returns block from the start it is given
      leaves the open parameter well nested. */
  lemma BlocksKeepNesting(st: ReaderState, parameterStrings: seq<ParameterString>,
                          returnsStrings: seq<ReturnsValuesString>, lineShift: int, charShift: int)
    ensures ParamLevelsOk(OpenParam(ParameterStringsVisited(WithParam(st, Fake(true)), parameterStrings, lineShift, charShift)))
    ensures ParamLevelsOk(OpenParam(ReturnsStringsVisited(ReaderState(st.builder, Some(Fake(false)), -1), returnsStrings)))
  {
    ParameterStringsOk(WithParam(st, Fake(true)), parameterStrings, lineShift, charShift);
    ReturnsStringsOk(ReaderState(st.builder, Some(Fake(false)), -1), returnsStrings);
  }

  // ---------------------------------------------------------------------------
  // The returns block
  // ---------------------------------------------------------------------------

  /** The first value line fixes the indentation and adds its types. */
  lemma FirstReturnsValueFixesLevel(st: ReaderState, startPart: string, typ: Option<TypeCtx>, desc: Option<TypeDescriptionCtx>)
    requires st.lastReadParam.Some? && st.typeLevel == -1
    ensures var r := VisitedReturnsValue(st, startPart, typ, desc);
      r.typeLevel == |startPart| && r.lastReadParam == Some(AddTypes(OpenParam(st), typ, desc)) && r.builder == st.builder
  {
  }

  /** A value line at the fixed indentation adds its types. */
  lemma SameLevelAddsTypes(st: ReaderState, startPart: string, typ: Option<TypeCtx>, desc: Option<TypeDescriptionCtx>)
    requires st.lastReadParam.Some? && st.typeLevel == |startPart|
    ensures VisitedReturnsValue(st, startPart, typ, desc) == WithParam(st, AddTypes(OpenParam(st), typ, desc))
  {
  }

  /** A value line at another indentation adds no type: its text continues the
      description of the last type, when that type has no fields. */
  lemma OtherLevelContinuesDescription(st: ReaderState, startPart: string, typ: Option<TypeCtx>, desc: Option<TypeDescriptionCtx>)
    requires st.lastReadParam.Some? && st.typeLevel != -1 && st.typeLevel != |startPart|
    ensures var p := OpenParam(st);
      var r := VisitedReturnsValue(st, startPart, typ, desc);
      var q := OpenParam(r);
      r.typeLevel == st.typeLevel && r.builder == st.builder
      && q.name == p.name && |q.types| == |p.types|
      && (p.types != [] && LastType(p).fields == [] && ContinuationText(typ, desc) != [] ==>
            LastType(q).description == LastType(p).description + [Strip(ContinuationText(typ, desc))])
  {
    var p := OpenParam(st);
    var text := ContinuationText(typ, desc);
    if p.types != [] && LastType(p).fields == [] && text != [] {
      var t := TypeAddText(LastType(p), text);
      assert t.description == LastType(p).description + [Strip(text)];
      assert OpenParam(VisitedReturnsValue(st, startPart, typ, desc)) == WithLastType(p, t);
    }
  }

  /** The returned value is the built types of the fake parameter the lines filled. */
  lemma ReturnedValueOfBlock(st: ReaderState, strings: seq<ReturnsValuesString>, lineShift: int, charShift: int)
    ensures var read := ReturnsStringsVisited(ReaderState(st.builder, Some(Fake(false)), -1), strings);
      var r := VisitedReturnsValuesBlock(st, strings, lineShift, charShift);
      r.builder == st.builder.(returnedValue := r.builder.returnedValue)
      && r.builder.returnedValue.Some? && |r.builder.returnedValue.value| == |OpenParam(read).types|
      && forall i :: 0 <= i < |OpenParam(read).types| ==>
        r.builder.returnedValue.value[i] == BuildType(OpenParam(read).types[i], lineShift, charShift)
  {
    ReturnsStringsKeepBuilder(ReaderState(st.builder, Some(Fake(false)), -1), strings);
  }
}
