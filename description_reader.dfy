/**
 * DescriptionReader: reads the parse tree of a method's documentation
 * comment into parameter and returned-value descriptions. The parameters
 * block is read line by line: a parameter line opens a parameter, type
 * lines add types to it, description lines describe its last type, and
 * field lines, marked by a run of `*`, nest parameters inside a type by the
 * length of that run. The accumulators TempParameterData and
 * TempParameterTypeData are values here, updated by functions.
 */
module DescriptionReaders {
  import opened Wrappers
  import opened Text
  import opened SimpleRanges
  import opened ParseTrees
  import Hyperlinks
  import opened ReaderUtils

  /** The length of the reference marker a hyperlink type starts with. */
  const HYPERLINK_REF_LEN := 4

  /** support.TypeDescription */
  datatype TypeDescription = TypeDescription(name: string, description: string,
                                             parameters: seq<ParameterDescription>,
                                             link: string, isHyperlink: bool)

  /** support.ParameterDescription */
  datatype ParameterDescription = ParameterDescription(name: string, types: seq<TypeDescription>,
                                                       link: string, isHyperlink: bool)

  // ---------------------------------------------------------------------------
  // The parse tree of a description comment, as the reader sees it
  // ---------------------------------------------------------------------------

  /** Which alternative of the type rule matched. */
  datatype TypeKind = ListTypes | HyperlinkType | SimpleType | ComplexType | OtherType

  /** A type context: its alternative and its text. */
  datatype TypeCtx = TypeCtx(kind: TypeKind, text: string)

  /** A typesBlock: an optional type and the text of an optional typeDescription. */
  datatype TypesBlockCtx = TypesBlockCtx(typ: Option<TypeCtx>, typeDescription: Option<string>)

  datatype ParameterCtx = ParameterCtx(parameterName: Option<string>, typesBlock: Option<TypesBlockCtx>)

  /** A field line: its run of stars, a name and a typesBlock, each optional. */
  datatype FieldCtx = FieldCtx(star: Option<string>, parameterName: Option<string>,
                               typesBlock: Option<TypesBlockCtx>)

  /** One line of the parameters block. */
  datatype ParameterString =
    | ParameterLine(parameter: ParameterCtx)
    | TypesLine(typesBlock: TypesBlockCtx)
    | DescriptionLine(text: string)
    | FieldLine(field: FieldCtx)
    | EmptyLine

  /** A returns-value line: the text in front of the type, the type and its description. */
  datatype ReturnsValueCtx = ReturnsValueCtx(startPart: string, typ: Option<TypeCtx>,
                                             typeDescription: Option<string>)

  /** One line of the returns block. */
  datatype ReturnsValuesString =
    | ReturnsValueLine(returnsValue: ReturnsValueCtx)
    | ReturnsTypesLine(typesBlock: TypesBlockCtx)
    | ReturnsDescriptionLine(text: string)
    | ReturnsFieldLine(field: FieldCtx)
    | ReturnsEmptyLine

  /** A hyperlinkBlock: whether it holds a hyperlinkType, and the node itself. */
  datatype HyperlinkBlockCtx = HyperlinkBlockCtx(hasHyperlinkType: bool, node: RuleNode)

  datatype ParametersCtx = ParametersCtx(hyperlinkBlock: Option<HyperlinkBlockCtx>,
                                         parameterStrings: seq<ParameterString>)

  datatype ReturnsValuesCtx = ReturnsValuesCtx(hyperlinkBlock: Option<HyperlinkBlockCtx>,
                                               returnsValuesStrings: seq<ReturnsValuesString>)

  datatype DeprecateBlockCtx = DeprecateBlockCtx(deprecateDescription: Option<string>)

  /** The whole comment: its optional blocks, and the tree for collecting hyperlinks. */
  datatype MethodDescriptionCtx = MethodDescriptionCtx(
    parameters: Option<ParametersCtx>,
    returnsValues: Option<ReturnsValuesCtx>,
    deprecateBlock: Option<DeprecateBlockCtx>,
    examples: Option<seq<RuleNode>>,
    descriptionBlock: Option<seq<RuleNode>>,
    tree: RuleNode)

  // ---------------------------------------------------------------------------
  // The accumulators
  // ---------------------------------------------------------------------------

  /** TempParameterData: a parameter being read. */
  datatype TempParam = TempParam(name: string, empty: bool, types: seq<TempType>, level: int)

  /** TempParameterTypeData: a type being read, with its description lines and fields. */
  datatype TempType = TempType(name: string, description: seq<string>, level: int,
                               fields: seq<TempParam>, isHyperlink: bool)

  /** new TempParameterData(): no parameter open. */
  const NoParam := TempParam("", true, [], 1)

  /** new TempParameterData(name) */
  function ParamFromString(name: string): (p: TempParam)
    ensures !p.empty && p.name == Strip(name) && p.types == [] && p.level == 1
  {
    TempParam(Strip(name), false, [], 1)
  }

  /** new TempParameterData(parameter): empty without a name, otherwise named and typed by its typesBlock. */
  function ParamFromParameter(parameter: ParameterCtx): (p: TempParam)
    ensures p.empty <==> parameter.parameterName.None?
    ensures parameter.parameterName.Some? ==> p.name == Strip(parameter.parameterName.value)
    ensures p.level == 1
  {
    if parameter.parameterName.None? then NoParam
    else
      var p := TempParam(Strip(parameter.parameterName.value), false, [], 1);
      if parameter.typesBlock.None? then p
      else AddTypes(p, parameter.typesBlock.value.typ, parameter.typesBlock.value.typeDescription)
  }

  /** new TempParameterData(field, level) */
  function ParamFromField(field: FieldCtx, level: int): (p: TempParam)
    ensures p.empty <==> field.parameterName.None?
    ensures field.parameterName.Some? ==> p.name == Strip(field.parameterName.value)
    ensures p.level == level
  {
    if field.parameterName.None? then NoParam.(level := level)
    else
      var p := TempParam(Strip(field.parameterName.value), false, [], level);
      if field.typesBlock.None? then p
      else AddTypes(p, field.typesBlock.value.typ, field.typesBlock.value.typeDescription)
  }

  /** An update that leaves the parameter as it was except for types appended at the end. */
  predicate AppendsTypes(p: TempParam, r: TempParam) {
    r.name == p.name && r.empty == p.empty && r.level == p.level
    && |p.types| <= |r.types| && r.types[..|p.types|] == p.types
  }

  /** addType(type, description): nothing for an empty parameter or a missing type;
      a comma list adds its non-blank pieces, stripped; a hyperlink, simple or
      complex type adds its text. */
  function AddTypes(p: TempParam, typ: Option<TypeCtx>, desc: Option<string>): (r: TempParam)
    ensures AppendsTypes(p, r)
    ensures p.empty || typ.None? ==> r == p
  {
    if p.empty || typ.None? then p
    else
      match typ.value.kind
      case ListTypes => AddListTypes(p, JavaSplit(typ.value.text, {','}), desc)
      case HyperlinkType => AddType(p, desc, typ.value.text, true)
      case SimpleType => AddType(p, desc, typ.value.text, false)
      case ComplexType => AddType(p, desc, typ.value.text, false)
      case OtherType => p
  }

  /** The loop over the comma-separated pieces of a type list. */
  function AddListTypes(p: TempParam, pieces: seq<string>, desc: Option<string>): (r: TempParam)
    ensures AppendsTypes(p, r)
    decreases |pieces|
  {
    if pieces == [] then p
    else
      var next := if IsBlank(pieces[0]) then p else AddType(p, desc, Strip(pieces[0]), false);
      AddListTypes(next, pieces[1..], desc)
  }

  /** new TempParameterTypeData(name, level, isHyperlink), then its description if there is one. */
  function NewType(name: string, level: int, isHyperlink: bool, desc: Option<string>): (t: TempType)
    ensures t.name == name && t.level == level && t.isHyperlink == isHyperlink && t.fields == []
    ensures t.description == if desc.Some? then [Strip(desc.value)] else []
  {
    var t := TempType(name, [], level, [], isHyperlink);
    if desc.Some? then TypeAddDescription(t, desc.value) else t
  }

  /** addType(description, text, isHyperlink): a new type at the parameter's level. */
  function AddType(p: TempParam, desc: Option<string>, text: string, isHyperlink: bool): (r: TempParam)
    ensures AppendsTypes(p, r) && |r.types| == |p.types| + 1
    ensures var t := r.types[|p.types|];
      t.name == text && t.level == p.level && t.isHyperlink == isHyperlink && t.fields == []
  {
    p.(types := p.types + [NewType(text, p.level, isHyperlink, desc)])
  }

  function LastType(p: TempParam): TempType
    requires p.types != []
  {
    p.types[|p.types| - 1]
  }

  function WithLastType(p: TempParam, t: TempType): TempParam
    requires p.types != []
  {
    p.(types := p.types[|p.types| - 1 := t])
  }

  function LastField(t: TempType): TempParam
    requires t.fields != []
  {
    t.fields[|t.fields| - 1]
  }

  function WithLastField(t: TempType, f: TempParam): TempType
    requires t.fields != []
  {
    t.(fields := t.fields[|t.fields| - 1 := f])
  }

  /** addTypeDescription(ctx) on a parameter: goes to its last type, if any. */
  function ParamAddDescription(p: TempParam, d: string): (r: TempParam)
    ensures r.name == p.name && r.empty == p.empty && r.level == p.level && |r.types| == |p.types|
    ensures p.types != [] ==>
      r.types[..|p.types| - 1] == p.types[..|p.types| - 1]
      && LastType(r).name == LastType(p).name && LastType(r).level == LastType(p).level
    decreases p
  {
    if p.types == [] then p else WithLastType(p, TypeAddDescription(LastType(p), d))
  }

  /** addTypeDescription(ctx) on a type: goes to its last field, recursively,
      or else becomes a new stripped line of its description. */
  function TypeAddDescription(t: TempType, d: string): (r: TempType)
    ensures r.name == t.name && r.level == t.level && r.isHyperlink == t.isHyperlink && |r.fields| == |t.fields|
    ensures t.fields == [] ==> r.description == t.description + [Strip(d)]
    ensures t.fields != [] ==> r.description == t.description && r.fields[..|t.fields| - 1] == t.fields[..|t.fields| - 1]
    decreases t
  {
    if t.fields != [] then WithLastField(t, ParamAddDescription(LastField(t), d))
    else t.(description := t.description + [Strip(d)])
  }

  /** addTypeDescription(String) on a parameter. */
  function ParamAddText(p: TempParam, s: string): (r: TempParam)
    ensures r.name == p.name && r.empty == p.empty && r.level == p.level && |r.types| == |p.types|
    ensures p.types != [] ==>
      r.types[..|p.types| - 1] == p.types[..|p.types| - 1]
      && LastType(r).name == LastType(p).name && LastType(r).level == LastType(p).level
    decreases p
  {
    if p.types == [] then p else WithLastType(p, TypeAddText(LastType(p), s))
  }

  /** addTypeDescription(String) on a type: as for a description line, but an empty text is ignored. */
  function TypeAddText(t: TempType, s: string): (r: TempType)
    ensures r.name == t.name && r.level == t.level && r.isHyperlink == t.isHyperlink && |r.fields| == |t.fields|
    ensures s == [] ==> r == t
    ensures s != [] && t.fields == [] ==> r.description == t.description + [Strip(s)]
    ensures t.fields != [] ==> r.description == t.description && r.fields[..|t.fields| - 1] == t.fields[..|t.fields| - 1]
    decreases t
  {
    if s == [] then t
    else if t.fields != [] then WithLastField(t, ParamAddText(LastField(t), s))
    else t.(description := t.description + [Strip(s)])
  }

  /** addField on a parameter: goes to its last type, if any. */
  function ParamAddField(p: TempParam, f: FieldCtx): (r: TempParam)
    ensures r.name == p.name && r.empty == p.empty && r.level == p.level && |r.types| == |p.types|
    ensures p.types != [] ==>
      r.types[..|p.types| - 1] == p.types[..|p.types| - 1]
      && LastType(r).name == LastType(p).name && LastType(r).level == LastType(p).level
    decreases p
  {
    if p.types == [] then p else WithLastType(p, TypeAddField(LastType(p), f))
  }

  /** addField on a type: a star run as long as the type's level opens a field
      one level deeper; any other run goes to the last field; a line without
      stars is dropped. */
  function TypeAddField(t: TempType, f: FieldCtx): (r: TempType)
    ensures r.name == t.name && r.level == t.level && r.isHyperlink == t.isHyperlink && r.description == t.description
    ensures |t.fields| <= |r.fields| <= |t.fields| + 1
    ensures t.fields != [] ==> r.fields[..|t.fields| - 1] == t.fields[..|t.fields| - 1]
    decreases t
  {
    if f.star.None? then t
    else if |f.star.value| == t.level then t.(fields := t.fields + [ParamFromField(f, t.level + 1)])
    else if t.fields != [] then WithLastField(t, ParamAddField(LastField(t), f))
    else t
  }

  // ---------------------------------------------------------------------------
  // Well-formed accumulators
  // ---------------------------------------------------------------------------

  /** Every hyperlink type is long enough to drop the reference marker from. */
  predicate ParamNamesOk(p: TempParam)
    decreases p
  {
    forall i :: 0 <= i < |p.types| ==> TypeNamesOk(p.types[i])
  }

  predicate TypeNamesOk(t: TempType)
    decreases t
  {
    (t.isHyperlink ==> |t.name| >= HYPERLINK_REF_LEN)
    && forall i :: 0 <= i < |t.fields| ==> ParamNamesOk(t.fields[i])
  }

  /** The nesting invariant: a parameter's types are at its level, a type's
      fields one level deeper, and an empty parameter has no types. */
  predicate ParamLevelsOk(p: TempParam)
    decreases p
  {
    (p.empty ==> p.types == [])
    && forall i :: 0 <= i < |p.types| ==> p.types[i].level == p.level && TypeLevelsOk(p.types[i])
  }

  predicate TypeLevelsOk(t: TempType)
    decreases t
  {
    forall i :: 0 <= i < |t.fields| ==> t.fields[i].level == t.level + 1 && ParamLevelsOk(t.fields[i])
  }

  predicate ParamOk(p: TempParam) {
    ParamNamesOk(p) && ParamLevelsOk(p)
  }

  predicate TypeOk(t: TempType) {
    TypeNamesOk(t) && TypeLevelsOk(t)
  }

  /** The input side: a hyperlink type's text is long enough for its reference marker. */
  predicate TypeCtxOk(typ: Option<TypeCtx>) {
    typ.Some? && typ.value.kind == HyperlinkType ==> |typ.value.text| >= HYPERLINK_REF_LEN
  }

  predicate TypesBlockOk(tb: Option<TypesBlockCtx>) {
    tb.Some? ==> TypeCtxOk(tb.value.typ)
  }

  predicate ParameterStringOk(s: ParameterString) {
    match s
    case ParameterLine(p) => TypesBlockOk(p.typesBlock)
    case TypesLine(tb) => TypeCtxOk(tb.typ)
    case FieldLine(f) => TypesBlockOk(f.typesBlock)
    case _ => true
  }

  predicate ReturnsValuesStringOk(s: ReturnsValuesString) {
    match s
    case ReturnsValueLine(rv) => TypeCtxOk(rv.typ)
    case ReturnsTypesLine(tb) => TypeCtxOk(tb.typ)
    case ReturnsFieldLine(f) => TypesBlockOk(f.typesBlock)
    case _ => true
  }

  predicate HyperlinkBlockOk(b: Option<HyperlinkBlockCtx>) {
    b.Some? && b.value.hasHyperlinkType ==> |DescriptionString(b.value.node)| >= HYPERLINK_REF_LEN
  }

  predicate MethodDescriptionOk(ctx: MethodDescriptionCtx) {
    (ctx.parameters.Some? ==>
       HyperlinkBlockOk(ctx.parameters.value.hyperlinkBlock)
       && ParameterStringsOk(ctx.parameters.value.parameterStrings))
    && (ctx.returnsValues.Some? ==>
          HyperlinkBlockOk(ctx.returnsValues.value.hyperlinkBlock)
          && ReturnsValuesStringsOk(ctx.returnsValues.value.returnsValuesStrings))
  }

  // ---------------------------------------------------------------------------
  // The updates keep the accumulators well formed
  // ---------------------------------------------------------------------------

  lemma WithLastTypeOk(p: TempParam, t: TempType)
    requires ParamOk(p) && p.types != [] && TypeOk(t) && t.level == p.level
    ensures ParamOk(WithLastType(p, t))
  {
    var r := WithLastType(p, t);
    assert forall i :: 0 <= i < |r.types| ==> r.types[i] == if i == |p.types| - 1 then t else p.types[i];
  }

  lemma WithLastFieldOk(t: TempType, f: TempParam)
    requires TypeOk(t) && t.fields != [] && ParamOk(f) && f.level == t.level + 1
    ensures TypeOk(WithLastField(t, f))
  {
    var r := WithLastField(t, f);
    assert forall i :: 0 <= i < |r.fields| ==> r.fields[i] == if i == |t.fields| - 1 then f else t.fields[i];
  }

  lemma AddTypeOk(p: TempParam, desc: Option<string>, text: string, isHyperlink: bool)
    requires ParamOk(p) && !p.empty && (isHyperlink ==> |text| >= HYPERLINK_REF_LEN)
    ensures ParamOk(AddType(p, desc, text, isHyperlink))
  {
    var r := AddType(p, desc, text, isHyperlink);
    assert forall i :: 0 <= i < |r.types| ==>
      r.types[i] == if i == |p.types| then NewType(text, p.level, isHyperlink, desc) else p.types[i];
  }

  lemma {:induction false} AddListTypesOk(p: TempParam, pieces: seq<string>, desc: Option<string>)
    requires ParamOk(p) && !p.empty
    ensures ParamOk(AddListTypes(p, pieces, desc))
    decreases |pieces|
  {
    if pieces != [] {
      if !IsBlank(pieces[0]) {
        AddTypeOk(p, desc, Strip(pieces[0]), false);
      }
      var next := if IsBlank(pieces[0]) then p else AddType(p, desc, Strip(pieces[0]), false);
      AddListTypesOk(next, pieces[1..], desc);
    }
  }

  lemma AddTypesOk(p: TempParam, typ: Option<TypeCtx>, desc: Option<string>)
    requires ParamOk(p) && TypeCtxOk(typ)
    ensures ParamOk(AddTypes(p, typ, desc))
  {
    if !p.empty && typ.Some? {
      match typ.value.kind
      case ListTypes => AddListTypesOk(p, JavaSplit(typ.value.text, {','}), desc);
      case HyperlinkType => AddTypeOk(p, desc, typ.value.text, true);
      case SimpleType => AddTypeOk(p, desc, typ.value.text, false);
      case ComplexType => AddTypeOk(p, desc, typ.value.text, false);
      case OtherType =>
    }
  }

  lemma ParamFromParameterOk(parameter: ParameterCtx)
    requires TypesBlockOk(parameter.typesBlock)
    ensures ParamOk(ParamFromParameter(parameter))
  {
    if parameter.parameterName.Some? && parameter.typesBlock.Some? {
      var tb := parameter.typesBlock.value;
      AddTypesOk(TempParam(Strip(parameter.parameterName.value), false, [], 1), tb.typ, tb.typeDescription);
    }
  }

  lemma ParamFromFieldOk(field: FieldCtx, level: int)
    requires TypesBlockOk(field.typesBlock)
    ensures ParamOk(ParamFromField(field, level))
  {
    if field.parameterName.Some? && field.typesBlock.Some? {
      var tb := field.typesBlock.value;
      AddTypesOk(TempParam(Strip(field.parameterName.value), false, [], level), tb.typ, tb.typeDescription);
    }
  }

  lemma {:induction false} ParamAddDescriptionOk(p: TempParam, d: string)
    requires ParamOk(p)
    ensures var r := ParamAddDescription(p, d);
      ParamOk(r) && r.name == p.name && r.empty == p.empty && r.level == p.level && |r.types| == |p.types|
    decreases p
  {
    if p.types != [] {
      TypeAddDescriptionOk(LastType(p), d);
      WithLastTypeOk(p, TypeAddDescription(LastType(p), d));
    }
  }

  lemma {:induction false} TypeAddDescriptionOk(t: TempType, d: string)
    requires TypeOk(t)
    ensures var r := TypeAddDescription(t, d);
      TypeOk(r) && r.name == t.name && r.level == t.level && r.isHyperlink == t.isHyperlink
    decreases t
  {
    if t.fields != [] {
      ParamAddDescriptionOk(LastField(t), d);
      WithLastFieldOk(t, ParamAddDescription(LastField(t), d));
    }
  }

  lemma {:induction false} ParamAddTextOk(p: TempParam, s: string)
    requires ParamOk(p)
    ensures var r := ParamAddText(p, s);
      ParamOk(r) && r.name == p.name && r.empty == p.empty && r.level == p.level && |r.types| == |p.types|
    decreases p
  {
    if p.types != [] {
      TypeAddTextOk(LastType(p), s);
      WithLastTypeOk(p, TypeAddText(LastType(p), s));
    }
  }

  lemma {:induction false} TypeAddTextOk(t: TempType, s: string)
    requires TypeOk(t)
    ensures var r := TypeAddText(t, s);
      TypeOk(r) && r.name == t.name && r.level == t.level && r.isHyperlink == t.isHyperlink
    decreases t
  {
    if s != [] && t.fields != [] {
      ParamAddTextOk(LastField(t), s);
      WithLastFieldOk(t, ParamAddText(LastField(t), s));
    }
  }

  lemma {:induction false} ParamAddFieldOk(p: TempParam, f: FieldCtx)
    requires ParamOk(p) && TypesBlockOk(f.typesBlock)
    ensures var r := ParamAddField(p, f);
      ParamOk(r) && r.name == p.name && r.empty == p.empty && r.level == p.level && |r.types| == |p.types|
    decreases p
  {
    if p.types != [] {
      TypeAddFieldOk(LastType(p), f);
      WithLastTypeOk(p, TypeAddField(LastType(p), f));
    }
  }

  lemma {:induction false} TypeAddFieldOk(t: TempType, f: FieldCtx)
    requires TypeOk(t) && TypesBlockOk(f.typesBlock)
    ensures var r := TypeAddField(t, f);
      TypeOk(r) && r.name == t.name && r.level == t.level && r.isHyperlink == t.isHyperlink
    decreases t
  {
    if f.star.Some? {
      if |f.star.value| == t.level {
        var nf := ParamFromField(f, t.level + 1);
        ParamFromFieldOk(f, t.level + 1);
        var r := TypeAddField(t, f);
        assert forall i :: 0 <= i < |r.fields| ==> r.fields[i] == if i == |t.fields| then nf else t.fields[i];
      } else if t.fields != [] {
        ParamAddFieldOk(LastField(t), f);
        WithLastFieldOk(t, ParamAddField(LastField(t), f));
      }
    }
  }

  // ---------------------------------------------------------------------------
  // Building the descriptions
  // ---------------------------------------------------------------------------

  /** makeParameterDescription: the name, and each type built in order. */
  function MakeParameter(p: TempParam): (r: ParameterDescription)
    requires ParamNamesOk(p)
    ensures r.name == p.name && |r.types| == |p.types| && r.link == [] && !r.isHyperlink
    ensures forall i :: 0 <= i < |p.types| ==> r.types[i] == MakeType(p.types[i])
    decreases p
  {
    ParameterDescription(p.name, seq(|p.types|, i requires 0 <= i < |p.types| => MakeType(p.types[i])), [], false)
  }

  /** A type: its description lines joined by "\n", its fields built in order,
      and for a hyperlink type the link its name refers to. */
  function MakeType(t: TempType): (r: TypeDescription)
    requires TypeNamesOk(t)
    ensures r.name == t.name && r.description == Join(t.description, "\n") && r.isHyperlink == t.isHyperlink
    ensures |r.parameters| == |t.fields| && forall i :: 0 <= i < |t.fields| ==> r.parameters[i] == MakeParameter(t.fields[i])
    ensures t.isHyperlink ==> r.link == t.name[HYPERLINK_REF_LEN..] && t.name == t.name[..HYPERLINK_REF_LEN] + r.link
    ensures !t.isHyperlink ==> r.link == []
    decreases t
  {
    TypeDescription(t.name, Join(t.description, "\n"),
                    seq(|t.fields|, i requires 0 <= i < |t.fields| => MakeParameter(t.fields[i])),
                    if t.isHyperlink then t.name[HYPERLINK_REF_LEN..] else [], t.isHyperlink)
  }

  // ---------------------------------------------------------------------------
  // The parameters block
  // ---------------------------------------------------------------------------

  /** The loop state of getParametersStrings: the finished parameters and the open one. */
  datatype ParamsState = ParamsState(result: seq<ParameterDescription>, current: TempParam)

  /** The text of a description line names a parameter when, stripped, it is a single word. */
  predicate IsSingleWord(text: string) {
    |JavaSplit(Strip(text), RegexSpaces)| == 1
  }

  /** One line of the parameters block. */
  function ParamsStep(st: ParamsState, s: ParameterString): (r: ParamsState)
    requires ParamOk(st.current) && ParameterStringOk(s)
    ensures ParamOk(r.current)
  {
    match s
    case ParameterLine(parameter) =>
      ParamFromParameterOk(parameter);
      var result := if st.current.empty then st.result else st.result + [MakeParameter(st.current)];
      ParamsState(result, ParamFromParameter(parameter))
    case TypesLine(tb) =>
      AddTypesOk(st.current, tb.typ, tb.typeDescription);
      st.(current := AddTypes(st.current, tb.typ, tb.typeDescription))
    case DescriptionLine(text) =>
      if st.current.empty then
        if IsSingleWord(text) then st.(current := ParamFromString(Strip(text))) else st
      else
        ParamAddDescriptionOk(st.current, text);
        st.(current := ParamAddDescription(st.current, text))
    case FieldLine(f) =>
      ParamAddFieldOk(st.current, f);
      st.(current := ParamAddField(st.current, f))
    case EmptyLine => st
  }

  predicate ParameterStringsOk(strings: seq<ParameterString>) {
    forall i :: 0 <= i < |strings| ==> ParameterStringOk(strings[i])
  }

  /** The loop state after the given lines. */
  function ParamsFold(strings: seq<ParameterString>): (r: ParamsState)
    requires ParameterStringsOk(strings)
    ensures ParamOk(r.current)
  {
    if strings == [] then ParamsState([], NoParam)
    else ParamsStep(ParamsFold(strings[..|strings| - 1]), strings[|strings| - 1])
  }

  /** The parameters of the lines: those closed by a later parameter line, then the one still open. */
  function ParametersOf(strings: seq<ParameterString>): seq<ParameterDescription>
    requires ParameterStringsOk(strings)
  {
    var st := ParamsFold(strings);
    if st.current.empty then st.result else st.result + [MakeParameter(st.current)]
  }

  /** getParametersStrings */
  method GetParametersStrings(strings: seq<ParameterString>) returns (result: seq<ParameterDescription>)
    requires ParameterStringsOk(strings)
    ensures result == ParametersOf(strings)
  {
    result := [];
    var current := NoParam;
    var i := 0;
    while i < |strings|
      invariant 0 <= i <= |strings|
      invariant ParamsState(result, current) == ParamsFold(strings[..i])
    {
      var s := strings[i];
      assert strings[..i + 1][..i] == strings[..i];
      match s {
        case ParameterLine(parameter) =>
          if !current.empty {
            result := result + [MakeParameter(current)];
          }
          current := ParamFromParameter(parameter);
        case TypesLine(tb) =>
          current := AddTypes(current, tb.typ, tb.typeDescription);
        case DescriptionLine(text) =>
          if current.empty {
            var stripped := Strip(text);
            if |JavaSplit(stripped, RegexSpaces)| == 1 {
              current := ParamFromString(stripped);
            }
          } else {
            current := ParamAddDescription(current, text);
          }
        case FieldLine(f) =>
          current := ParamAddField(current, f);
        case EmptyLine =>
      }
      i := i + 1;
    }
    assert strings[..i] == strings;
    if !current.empty {
      result := result + [MakeParameter(current)];
    }
  }

  /** While no parameter is open, type lines, field lines and empty lines change nothing. */
  lemma IgnoredWhileClosed(st: ParamsState, s: ParameterString)
    requires ParamOk(st.current) && ParameterStringOk(s) && st.current.empty
    requires s.TypesLine? || s.FieldLine? || s.EmptyLine?
    ensures ParamsStep(st, s) == st
  {
  }

  /** While no parameter is open, a description line opens one exactly when its
      stripped text contains no whitespace, and that text becomes the name. */
  lemma DescriptionLineOpens(st: ParamsState, text: string)
    requires ParamOk(st.current) && st.current.empty
    ensures var r := ParamsStep(st, DescriptionLine(text));
      r.result == st.result
      && (!r.current.empty <==> forall k :: 0 <= k < |Strip(text)| ==> Strip(text)[k] !in RegexSpaces)
      && (!r.current.empty ==> r.current.name == Strip(text) && r.current.types == [])
  {
    SingleWordSplit(Strip(text));
    StripIdempotent(text);
  }

  /** A parameter line closes the open parameter (if it is not empty) and opens the next one. */
  lemma ParameterLineCloses(st: ParamsState, parameter: ParameterCtx)
    requires ParamOk(st.current) && TypesBlockOk(parameter.typesBlock)
    ensures var r := ParamsStep(st, ParameterLine(parameter));
      r.current == ParamFromParameter(parameter)
      && (st.current.empty ==> r.result == st.result)
      && (!st.current.empty ==> r.result == st.result + [MakeParameter(st.current)])
  {
  }

  predicate NamedParameterLines(strings: seq<ParameterString>) {
    forall i :: 0 <= i < |strings| ==>
      strings[i].ParameterLine? && strings[i].parameter.parameterName.Some?
      && TypesBlockOk(strings[i].parameter.typesBlock)
  }

  function LineName(s: ParameterString): string
    requires s.ParameterLine? && s.parameter.parameterName.Some?
  {
    Strip(s.parameter.parameterName.value)
  }

  /** The names of the lines, in order. */
  function LineNames(strings: seq<ParameterString>): (r: seq<string>)
    requires NamedParameterLines(strings)
    ensures |r| == |strings| && forall i :: 0 <= i < |strings| ==> r[i] == LineName(strings[i])
  {
    seq(|strings|, i requires 0 <= i < |strings| => LineName(strings[i]))
  }

  /** The names of built parameters, in order. */
  function ParameterNames(ps: seq<ParameterDescription>): (r: seq<string>)
    ensures |r| == |ps| && forall i :: 0 <= i < |ps| ==> r[i] == ps[i].name
  {
    seq(|ps|, i requires 0 <= i < |ps| => ps[i].name)
  }

  lemma ParameterNamesSnoc(ps: seq<ParameterDescription>, p: ParameterDescription)
    ensures ParameterNames(ps + [p]) == ParameterNames(ps) + [p.name]
  {
  }

  lemma LineNamesSnoc(strings: seq<ParameterString>)
    requires strings != [] && NamedParameterLines(strings)
    ensures NamedParameterLines(strings[..|strings| - 1])
    ensures LineNames(strings) == LineNames(strings[..|strings| - 1]) + [LineName(strings[|strings| - 1])]
  {
  }

  /** Named lines are well formed. */
  lemma NamedLinesOk(strings: seq<ParameterString>)
    requires NamedParameterLines(strings)
    ensures ParameterStringsOk(strings)
  {
    forall i | 0 <= i < |strings|
      ensures ParameterStringOk(strings[i])
    {
      assert strings[i].ParameterLine?;
    }
  }

  /** The fold's last step over a named line closes the open parameter and opens the line's. */
  lemma NamedFoldStep(strings: seq<ParameterString>)
    requires NamedParameterLines(strings) && strings != []
    ensures ParameterStringsOk(strings) && NamedParameterLines(strings[..|strings| - 1])
    ensures ParameterStringsOk(strings[..|strings| - 1])
    ensures var pre := ParamsFold(strings[..|strings| - 1]);
      var r := ParamsFold(strings);
      !r.current.empty && r.current.name == LineName(strings[|strings| - 1])
      && r.result == (if pre.current.empty then pre.result else pre.result + [MakeParameter(pre.current)])
  {
    var n := |strings|;
    NamedLinesOk(strings);
    LineNamesSnoc(strings);
    NamedLinesOk(strings[..n - 1]);
    assert strings[n - 1].ParameterLine?;
    ParameterLineCloses(ParamsFold(strings[..n - 1]), strings[n - 1].parameter);
  }

  lemma {:induction false} NamedParametersFold(strings: seq<ParameterString>)
    requires NamedParameterLines(strings) && strings != []
    ensures ParameterStringsOk(strings)
    ensures var st := ParamsFold(strings);
      |st.result| == |strings| - 1 && !st.current.empty && st.current.name == LineName(strings[|strings| - 1])
      && ParameterNames(st.result) == LineNames(strings[..|strings| - 1])
  {
    var n := |strings|;
    var prefix := strings[..n - 1];
    NamedFoldStep(strings);
    if n > 1 {
      NamedParametersFold(prefix);
      var pre := ParamsFold(prefix);
      ParameterNamesSnoc(pre.result, MakeParameter(pre.current));
      LineNamesSnoc(prefix);
    }
  }

  /** Parameter lines that all carry a name give one parameter each, named by
      their stripped names, in the order of the lines. */
  lemma NamedParameters(strings: seq<ParameterString>)
    requires NamedParameterLines(strings)
    ensures ParameterStringsOk(strings)
    ensures ParameterNames(ParametersOf(strings)) == LineNames(strings)
  {
    NamedLinesOk(strings);
    if strings != [] {
      NamedParametersFold(strings);
      var st := ParamsFold(strings);
      assert ParametersOf(strings) == st.result + [MakeParameter(st.current)];
      ParameterNamesSnoc(st.result, MakeParameter(st.current));
      LineNamesSnoc(strings);
    }
  }

  // ---------------------------------------------------------------------------
  // Lists of types, descriptions and fields
  // ---------------------------------------------------------------------------

  /** The pieces of a type list that name a type: the non-blank ones, stripped. */
  function ListTypeNames(pieces: seq<string>): seq<string> {
    if pieces == [] then []
    else (if IsBlank(pieces[0]) then [] else [Strip(pieces[0])]) + ListTypeNames(pieces[1..])
  }

  /** Every name taken from a type list is stripped and non-empty, and there
      are no more names than pieces. */
  lemma {:induction false} ListTypeNamesStripped(pieces: seq<string>)
    ensures var names := ListTypeNames(pieces);
      |names| <= |pieces| && forall k :: 0 <= k < |names| ==> IsStripped(names[k]) && names[k] != []
  {
    if pieces != [] {
      ListTypeNamesStripped(pieces[1..]);
    }
  }

  /** The types a list of names adds, one per name, all with the same description. */
  function NewTypes(names: seq<string>, level: int, desc: Option<string>): seq<TempType> {
    seq(|names|, k requires 0 <= k < |names| => NewType(names[k], level, false, desc))
  }

  lemma NewTypesAppend(a: seq<string>, b: seq<string>, level: int, desc: Option<string>)
    ensures NewTypes(a + b, level, desc) == NewTypes(a, level, desc) + NewTypes(b, level, desc)
  {
    var l := NewTypes(a + b, level, desc);
    var r := NewTypes(a, level, desc) + NewTypes(b, level, desc);
    assert |l| == |r|;
    forall k | 0 <= k < |l|
      ensures l[k] == r[k]
    {
      if k < |a| {
        assert (a + b)[k] == a[k];
      } else {
        assert (a + b)[k] == b[k - |a|];
      }
    }
  }

  /** A blank first piece of a type list adds nothing. */
  lemma BlankPieceSkipped(p: TempParam, pieces: seq<string>, desc: Option<string>)
    requires pieces != [] && IsBlank(pieces[0])
    ensures AddListTypes(p, pieces, desc) == AddListTypes(p, pieces[1..], desc)
    ensures ListTypeNames(pieces) == ListTypeNames(pieces[1..])
  {
  }

  /** A non-blank first piece of a type list adds its type, stripped. */
  lemma PieceAdded(p: TempParam, pieces: seq<string>, desc: Option<string>)
    requires pieces != [] && !IsBlank(pieces[0])
    ensures var next := AddType(p, desc, Strip(pieces[0]), false);
      AddListTypes(p, pieces, desc) == AddListTypes(next, pieces[1..], desc)
      && next.level == p.level && next.types == p.types + [NewType(Strip(pieces[0]), p.level, false, desc)]
      && ListTypeNames(pieces) == [Strip(pieces[0])] + ListTypeNames(pieces[1..])
  {
  }

  lemma NewTypesCons(name: string, names: seq<string>, level: int, desc: Option<string>)
    ensures NewTypes([name] + names, level, desc) == [NewType(name, level, false, desc)] + NewTypes(names, level, desc)
  {
    var l := NewTypes([name] + names, level, desc);
    var r := [NewType(name, level, false, desc)] + NewTypes(names, level, desc);
    forall k | 0 <= k < |l|
      ensures l[k] == r[k]
    {
      if k > 0 {
        assert ([name] + names)[k] == names[k - 1];
      }
    }
  }

  /** A type list adds one type per non-blank piece, stripped, in order, each
      with the same description. */
  lemma {:induction false} ListTypesShareDescription(p: TempParam, pieces: seq<string>, desc: Option<string>)
    ensures AddListTypes(p, pieces, desc).types == p.types + NewTypes(ListTypeNames(pieces), p.level, desc)
    decreases |pieces|
  {
    if pieces == [] {
      assert NewTypes([], p.level, desc) == [];
    } else if IsBlank(pieces[0]) {
      BlankPieceSkipped(p, pieces, desc);
      ListTypesShareDescription(p, pieces[1..], desc);
    } else {
      var name := Strip(pieces[0]);
      var next := AddType(p, desc, name, false);
      var x := NewType(name, p.level, false, desc);
      var rest := NewTypes(ListTypeNames(pieces[1..]), p.level, desc);
      calc {
        AddListTypes(p, pieces, desc).types;
        { PieceAdded(p, pieces, desc); }
        AddListTypes(next, pieces[1..], desc).types;
        { ListTypesShareDescription(next, pieces[1..], desc); }
        next.types + rest;
        p.types + [x] + rest;
        p.types + ([x] + rest);
        { NewTypesCons(name, ListTypeNames(pieces[1..]), p.level, desc); }
        p.types + NewTypes([name] + ListTypeNames(pieces[1..]), p.level, desc);
        { PieceAdded(p, pieces, desc); }
        p.types + NewTypes(ListTypeNames(pieces), p.level, desc);
      }
    }
  }

  /** A description line for a type without fields becomes its next description line, stripped. */
  lemma DescriptionGoesToLastType(p: TempParam, d: string)
    requires p.types != [] && LastType(p).fields == []
    ensures var r := ParamAddDescription(p, d);
      |r.types| == |p.types| && r.types[..|p.types| - 1] == p.types[..|p.types| - 1]
      && LastType(r).description == LastType(p).description + [Strip(d)]
  {
  }

  /** A field line without a star run changes nothing, however deep the nesting. */
  lemma {:induction false} StarlessFieldIgnored(p: TempParam, f: FieldCtx)
    requires f.star.None?
    ensures ParamAddField(p, f) == p
  {
    if p.types != [] {
      assert TypeAddField(LastType(p), f) == LastType(p);
      assert p.types[|p.types| - 1 := LastType(p)] == p.types;
    }
  }

  /** A star run as long as the last type's level adds a field to that type,
      one level deeper. */
  lemma FieldAtTypeLevel(p: TempParam, f: FieldCtx)
    requires p.types != [] && f.star.Some? && |f.star.value| == LastType(p).level
    ensures var r := ParamAddField(p, f);
      |r.types| == |p.types| && LastType(r).fields == LastType(p).fields + [ParamFromField(f, LastType(p).level + 1)]
      && LastField(LastType(r)).level == LastType(p).level + 1
  {
  }

  /** A star run of another length than the type's level goes to the type's
      last field, and is dropped when the type has no field. */
  lemma FieldDelegated(t: TempType, f: FieldCtx)
    requires f.star.Some? && |f.star.value| != t.level
    ensures t.fields != [] ==> TypeAddField(t, f) == WithLastField(t, ParamAddField(LastField(t), f))
    ensures t.fields == [] ==> TypeAddField(t, f) == t
  {
  }

  // ---------------------------------------------------------------------------
  // The returns block
  // ---------------------------------------------------------------------------

  /** The loop state of readReturnedValue: the parameter collecting the types,
      and the start-part length of the first returns-value line (-1 before it). */
  datatype ReturnsState = ReturnsState(fake: TempParam, typeStartLen: int)

  /** The text a returns-value line of another indentation adds as description: `type - description`. */
  function ContinuationText(rv: ReturnsValueCtx): (r: string)
    ensures rv.typ.Some? ==> rv.typ.value.text <= r
    ensures rv.typeDescription.Some? ==> var d := rv.typeDescription.value;
      |r| >= |d| + 3 && r[|r| - |d| - 3..] == " - " + d
    ensures r == [] <==> (rv.typ.None? || rv.typ.value.text == []) && rv.typeDescription.None?
  {
    (if rv.typ.Some? then rv.typ.value.text else [])
    + (if rv.typeDescription.Some? then " - " + rv.typeDescription.value else [])
  }

  function ReturnsStep(st: ReturnsState, s: ReturnsValuesString): (r: ReturnsState)
    requires ParamOk(st.fake) && ReturnsValuesStringOk(s)
    ensures ParamOk(r.fake)
  {
    match s
    case ReturnsValueLine(rv) =>
      if st.typeStartLen == -1 || |rv.startPart| == st.typeStartLen then
        AddTypesOk(st.fake, rv.typ, rv.typeDescription);
        ReturnsState(AddTypes(st.fake, rv.typ, rv.typeDescription), |rv.startPart|)
      else
        ParamAddTextOk(st.fake, ContinuationText(rv));
        st.(fake := ParamAddText(st.fake, ContinuationText(rv)))
    case ReturnsTypesLine(tb) =>
      AddTypesOk(st.fake, tb.typ, tb.typeDescription);
      st.(fake := AddTypes(st.fake, tb.typ, tb.typeDescription))
    case ReturnsDescriptionLine(text) =>
      ParamAddDescriptionOk(st.fake, text);
      st.(fake := ParamAddDescription(st.fake, text))
    case ReturnsFieldLine(f) =>
      ParamAddFieldOk(st.fake, f);
      st.(fake := ParamAddField(st.fake, f))
    case ReturnsEmptyLine => st
  }

  predicate ReturnsValuesStringsOk(strings: seq<ReturnsValuesString>) {
    forall i :: 0 <= i < |strings| ==> ReturnsValuesStringOk(strings[i])
  }

  function ReturnsFold(strings: seq<ReturnsValuesString>): (r: ReturnsState)
    requires ReturnsValuesStringsOk(strings)
    ensures ParamOk(r.fake)
  {
    if strings == [] then ReturnsState(ParamFromString([]), -1)
    else ReturnsStep(ReturnsFold(strings[..|strings| - 1]), strings[|strings| - 1])
  }

  /** The first returns-value line fixes the start-part length. */
  lemma FirstReturnsValueFixesLength(st: ReturnsState, rv: ReturnsValueCtx)
    requires ParamOk(st.fake) && TypeCtxOk(rv.typ) && st.typeStartLen == -1
    ensures ReturnsStep(st, ReturnsValueLine(rv)).typeStartLen == |rv.startPart|
  {
  }

  /** A later line of equal length adds its types, like a types line. */
  lemma SameLengthAddsTypes(st: ReturnsState, rv: ReturnsValueCtx)
    requires ParamOk(st.fake) && TypeCtxOk(rv.typ) && |rv.startPart| == st.typeStartLen
    ensures ReturnsStep(st, ReturnsValueLine(rv)) == ReturnsState(AddTypes(st.fake, rv.typ, rv.typeDescription), st.typeStartLen)
  {
  }

  /** A returns-value line of another length adds no type: it continues the
      description of the last type with `type - description`. */
  lemma OtherLengthAddsNoType(st: ReturnsState, rv: ReturnsValueCtx)
    requires ParamOk(st.fake) && TypeCtxOk(rv.typ)
    requires st.typeStartLen != -1 && |rv.startPart| != st.typeStartLen
    ensures var r := ReturnsStep(st, ReturnsValueLine(rv));
      r.typeStartLen == st.typeStartLen && |r.fake.types| == |st.fake.types|
      && (st.fake.types != [] && LastType(st.fake).fields == [] && ContinuationText(rv) != [] ==>
            LastType(r.fake).description == LastType(st.fake).description + [Strip(ContinuationText(rv))])
  {
    ParamAddTextOk(st.fake, ContinuationText(rv));
  }

  // ---------------------------------------------------------------------------
  // The blocks of a method description
  // ---------------------------------------------------------------------------

  /** The parameter a hyperlink-only parameters block stands for. */
  function HyperlinkParameter(b: HyperlinkBlockCtx): (p: ParameterDescription)
    requires HyperlinkBlockOk(Some(b)) && b.hasHyperlinkType
    ensures p.name == [] && p.types == [] && p.isHyperlink
    ensures DescriptionString(b.node) == DescriptionString(b.node)[..HYPERLINK_REF_LEN] + p.link
  {
    var text := DescriptionString(b.node);
    ParameterDescription([], [], text[HYPERLINK_REF_LEN..], true)
  }

  /** readParameters as a value. */
  function ParametersRead(ctx: MethodDescriptionCtx): (r: seq<ParameterDescription>)
    requires MethodDescriptionOk(ctx)
    ensures ctx.parameters.None? ==> r == []
    ensures ctx.parameters.Some? && ctx.parameters.value.hyperlinkBlock.Some? ==>
      var b := ctx.parameters.value.hyperlinkBlock.value;
      r == if b.hasHyperlinkType then [HyperlinkParameter(b)] else []
    ensures ctx.parameters.Some? && ctx.parameters.value.hyperlinkBlock.None? ==>
      r == ParametersOf(ctx.parameters.value.parameterStrings)
  {
    if ctx.parameters.None? then []
    else if ctx.parameters.value.hyperlinkBlock.Some? then
      var b := ctx.parameters.value.hyperlinkBlock.value;
      if b.hasHyperlinkType then [HyperlinkParameter(b)] else []
    else ParametersOf(ctx.parameters.value.parameterStrings)
  }

  /** A parameters block without lines describes no parameters. */
  lemma NoParameterLines(ctx: MethodDescriptionCtx)
    requires MethodDescriptionOk(ctx) && ctx.parameters.Some? && ctx.parameters.value.parameterStrings == []
    ensures ParametersRead(ctx) == [] || ParametersRead(ctx) == [HyperlinkParameter(ctx.parameters.value.hyperlinkBlock.value)]
  {
  }

  /** readParameters */
  method ReadParameters(ctx: MethodDescriptionCtx) returns (r: seq<ParameterDescription>)
    requires MethodDescriptionOk(ctx)
    ensures r == ParametersRead(ctx)
  {
    if ctx.parameters.None? {
      return [];
    }
    if ctx.parameters.value.hyperlinkBlock.Some? {
      var b := ctx.parameters.value.hyperlinkBlock.value;
      r := [];
      if b.hasHyperlinkType {
        r := r + [HyperlinkParameter(b)];
      }
      return;
    }
    r := GetParametersStrings(ctx.parameters.value.parameterStrings);
  }

  /** The type a hyperlink-only returns block stands for. */
  function HyperlinkReturnedType(b: HyperlinkBlockCtx): (t: TypeDescription)
    requires HyperlinkBlockOk(Some(b)) && b.hasHyperlinkType
    ensures t.name == DescriptionString(b.node) && t.description == [] && t.parameters == [] && t.isHyperlink
    ensures t.name == t.name[..HYPERLINK_REF_LEN] + t.link
  {
    var hyperlink := DescriptionString(b.node);
    TypeDescription(hyperlink, [], [], hyperlink[HYPERLINK_REF_LEN..], true)
  }

  /** readReturnedValue as a value. */
  function ReturnedValueRead(ctx: MethodDescriptionCtx): (r: seq<TypeDescription>)
    requires MethodDescriptionOk(ctx)
    ensures ctx.returnsValues.None? ==> r == []
    ensures ctx.returnsValues.Some? && ctx.returnsValues.value.hyperlinkBlock.Some? ==>
      var b := ctx.returnsValues.value.hyperlinkBlock.value;
      r == if b.hasHyperlinkType then [HyperlinkReturnedType(b)] else []
    ensures ctx.returnsValues.Some? && ctx.returnsValues.value.hyperlinkBlock.None? ==>
      r == MakeParameter(ReturnsFold(ctx.returnsValues.value.returnsValuesStrings).fake).types
  {
    if ctx.returnsValues.None? then []
    else if ctx.returnsValues.value.hyperlinkBlock.Some? then
      var b := ctx.returnsValues.value.hyperlinkBlock.value;
      if b.hasHyperlinkType then [HyperlinkReturnedType(b)] else []
    else MakeParameter(ReturnsFold(ctx.returnsValues.value.returnsValuesStrings).fake).types
  }

  /** readReturnedValue */
  method ReadReturnedValue(ctx: MethodDescriptionCtx) returns (r: seq<TypeDescription>)
    requires MethodDescriptionOk(ctx)
    ensures r == ReturnedValueRead(ctx)
  {
    if ctx.returnsValues.None? {
      return [];
    }
    if ctx.returnsValues.value.hyperlinkBlock.Some? {
      var b := ctx.returnsValues.value.hyperlinkBlock.value;
      r := [];
      if b.hasHyperlinkType {
        r := r + [HyperlinkReturnedType(b)];
      }
      return;
    }
    r := ReturnedTypes(ctx.returnsValues.value.returnsValuesStrings);
  }

  /** The loop of readReturnedValue: the lines fill one collecting parameter,
      whose types are the result. */
  method ReturnedTypes(strings: seq<ReturnsValuesString>) returns (r: seq<TypeDescription>)
    requires ReturnsValuesStringsOk(strings)
    ensures r == MakeParameter(ReturnsFold(strings).fake).types
  {
    var fakeParam := ParamFromString([]);
    var typeStartStringLen := -1;
    var i := 0;
    while i < |strings|
      invariant 0 <= i <= |strings|
      invariant ReturnsState(fakeParam, typeStartStringLen) == ReturnsFold(strings[..i])
    {
      var s := strings[i];
      assert strings[..i + 1][..i] == strings[..i];
      assert ReturnsFold(strings[..i + 1]) == ReturnsStep(ReturnsFold(strings[..i]), s);
      match s {
        case ReturnsValueLine(rv) =>
          if typeStartStringLen == -1 || |rv.startPart| == typeStartStringLen {
            fakeParam := AddTypes(fakeParam, rv.typ, rv.typeDescription);
            typeStartStringLen := |rv.startPart|;
          } else {
            fakeParam := ParamAddText(fakeParam, ContinuationText(rv));
          }
        case ReturnsTypesLine(tb) =>
          fakeParam := AddTypes(fakeParam, tb.typ, tb.typeDescription);
        case ReturnsDescriptionLine(text) =>
          fakeParam := ParamAddDescription(fakeParam, text);
        case ReturnsFieldLine(f) =>
          fakeParam := ParamAddField(fakeParam, f);
        case ReturnsEmptyLine =>
      }
      i := i + 1;
    }
    assert strings[..i] == strings;
    r := MakeParameter(fakeParam).types;
  }

  /** readDeprecationInfo: the stripped deprecation text, or "". */
  function DeprecationInfo(ctx: MethodDescriptionCtx): (r: string)
    ensures IsStripped(r)
    ensures ctx.deprecateBlock.None? || ctx.deprecateBlock.value.deprecateDescription.None? ==> r == []
    ensures ctx.deprecateBlock.Some? && ctx.deprecateBlock.value.deprecateDescription.Some? ==>
      r == Strip(ctx.deprecateBlock.value.deprecateDescription.value)
  {
    if ctx.deprecateBlock.Some? && ctx.deprecateBlock.value.deprecateDescription.Some? then
      Strip(ctx.deprecateBlock.value.deprecateDescription.value)
    else []
  }

  /** The examples: each example line's text, blank ones dropped. */
  function ExampleLines(strings: seq<RuleNode>): (r: seq<string>)
    ensures |r| <= |strings|
    ensures forall k :: 0 <= k < |r| ==> IsStripped(r[k]) && r[k] != []
  {
    if strings == [] then []
    else
      var s := DescriptionString(strings[0]);
      (if IsBlank(s) then [] else [s]) + ExampleLines(strings[1..])
  }

  /** A first line with text is kept as the first example line. */
  lemma ExampleLineKept(strings: seq<RuleNode>)
    requires strings != [] && DescriptionString(strings[0]) != []
    ensures ExampleLines(strings) == [DescriptionString(strings[0])] + ExampleLines(strings[1..])
  {
    var s := DescriptionString(strings[0]);
    assert !IsWhitespace(s[0]);
    assert !IsBlank(s);
  }

  lemma {:induction false} ExampleLinesKeepAll(strings: seq<RuleNode>)
    requires forall k :: 0 <= k < |strings| ==> DescriptionString(strings[k]) != []
    ensures ExampleLines(strings) == LineTexts(strings)
  {
    if strings != [] {
      var rest := strings[1..];
      ExampleLineKept(strings);
      LineTextsCons(strings);
      forall k | 0 <= k < |rest|
        ensures DescriptionString(rest[k]) != []
      {
        assert rest[k] == strings[k + 1];
      }
      ExampleLinesKeepAll(rest);
    }
  }

  lemma LineTextsCons(strings: seq<RuleNode>)
    requires strings != []
    ensures LineTexts(strings) == [DescriptionString(strings[0])] + LineTexts(strings[1..])
  {
  }


  /** readExamples */
  function Examples(ctx: MethodDescriptionCtx): (r: seq<string>)
    ensures ctx.examples.None? ==> r == []
    ensures ctx.examples.Some? ==> r == ExampleLines(ctx.examples.value)
  {
    if ctx.examples.Some? then ExampleLines(ctx.examples.value) else []
  }

  function LineTexts(strings: seq<RuleNode>): (r: seq<string>)
    ensures |r| == |strings| && forall k :: 0 <= k < |strings| ==> r[k] == DescriptionString(strings[k])
  {
    seq(|strings|, k requires 0 <= k < |strings| => DescriptionString(strings[k]))
  }

  /** readPurposeDescription: the description lines joined by "\n" and stripped. */
  function PurposeDescription(ctx: MethodDescriptionCtx): (r: string)
    ensures IsStripped(r)
    ensures ctx.descriptionBlock.None? ==> r == []
    ensures ctx.descriptionBlock.Some? ==> r == Strip(Join(LineTexts(ctx.descriptionBlock.value), "\n"))
  {
    if ctx.descriptionBlock.Some? then Strip(Join(LineTexts(ctx.descriptionBlock.value), "\n")) else []
  }

  /** A one-line purpose is that line's text. */
  lemma OneLinePurpose(ctx: MethodDescriptionCtx)
    requires ctx.descriptionBlock.Some? && |ctx.descriptionBlock.value| == 1
    ensures PurposeDescription(ctx) == DescriptionString(ctx.descriptionBlock.value[0])
  {
    var line := DescriptionString(ctx.descriptionBlock.value[0]);
    assert LineTexts(ctx.descriptionBlock.value) == [line];
    StrippedIsFixpoint(line);
  }

  /** The method description built from a comment. */
  datatype MethodDescription = MethodDescription(
    description: string,
    purposeDescription: string,
    links: seq<Hyperlinks.Hyperlink>,
    deprecated: bool,
    deprecationInfo: string,
    examples: seq<string>,
    parameters: seq<ParameterDescription>,
    returnedValue: seq<TypeDescription>,
    range: SimpleRange)

  /** readMethodDescription as a value, with the description parser as a parameter. */
  function MethodDescriptionRead(comments: seq<Token>, parse: string -> MethodDescriptionCtx): (d: MethodDescription)
    requires MethodDescriptionOk(parse(CommentText(comments)))
    ensures d.description == CommentText(comments) && d.range == CreateFromTokens(comments)
    ensures var ast := parse(CommentText(comments));
      d.purposeDescription == PurposeDescription(ast) && d.links == ReadLinks(ast.tree)
      && d.deprecated == ast.deprecateBlock.Some? && d.deprecationInfo == DeprecationInfo(ast)
      && d.examples == Examples(ast) && d.parameters == ParametersRead(ast)
      && d.returnedValue == ReturnedValueRead(ast)
  {
    var ast := parse(CommentText(comments));
    MethodDescription(CommentText(comments), PurposeDescription(ast), ReadLinks(ast.tree),
                      ast.deprecateBlock.Some?, DeprecationInfo(ast), Examples(ast),
                      ParametersRead(ast), ReturnedValueRead(ast), CreateFromTokens(comments))
  }

  /** readMethodDescription */
  method ReadMethodDescription(comments: seq<Token>, parse: string -> MethodDescriptionCtx) returns (d: MethodDescription)
    requires MethodDescriptionOk(parse(CommentText(comments)))
    ensures d == MethodDescriptionRead(comments, parse)
  {
    var description := CommentText(comments);
    var ast := parse(description);
    var parameters := ReadParameters(ast);
    var returnedValue := ReadReturnedValue(ast);
    d := MethodDescription(description, PurposeDescription(ast), ReadLinks(ast.tree),
                           ast.deprecateBlock.Some?, DeprecationInfo(ast), Examples(ast),
                           parameters, returnedValue, CreateFromTokens(comments));
  }
}
