/**
 * VariableDescriptionReader: reads the documentation comment of a variable
 * with the same description grammar as a method's. Of the blocks it only
 * heeds the purpose description and the deprecation; a trailing comment on
 * the declaration's line is read the same way as a description of its own.
 */
module VariableDescriptionReaders {
  import opened Wrappers
  import opened Text
  import opened SimpleRanges
  import opened ParseTrees
  import Hyperlinks
  import opened ReaderUtils
  import M = MethodDescriptionReaders

  /** The VariableDescription builder; a value never set is None. */
  datatype VariableDescription = VariableDescription(
    description: Option<string>,
    links: Option<seq<Hyperlinks.Hyperlink>>,
    range: Option<SimpleRange>,
    trailingDescription: Option<VariableDescription>,
    deprecated: bool,
    deprecationInfo: Option<string>,
    purposeDescription: Option<string>)

  const NewBuilder := VariableDescription(None, None, None, None, false, None, None)

  /** visitDeprecateBlock: deprecated, with the stripped deprecation text or "". */
  function DeprecatedBy(b: VariableDescription, deprecateDescription: Option<RuleNode>): (r: VariableDescription)
    ensures r.deprecated && r.deprecationInfo.Some? && IsStripped(r.deprecationInfo.value)
    ensures deprecateDescription.None? ==> r.deprecationInfo == Some([])
    ensures r == b.(deprecated := true, deprecationInfo := r.deprecationInfo)
  {
    var info := if deprecateDescription.Some? then Strip(NodeText(deprecateDescription.value)) else [];
    b.(deprecated := true, deprecationInfo := Some(info))
  }

  /** The effect of one block: only the description and deprecate blocks are read. */
  function VisitedBlock(b: VariableDescription, blk: M.Block): (r: VariableDescription)
    ensures r == b.(deprecated := r.deprecated, deprecationInfo := r.deprecationInfo,
                    purposeDescription := r.purposeDescription)
    ensures !blk.DescriptionBlock? && !blk.DeprecateBlock? ==> r == b
  {
    match blk
    case DescriptionBlock(strings) => b.(purposeDescription := Some(M.BlockText(strings)))
    case DeprecateBlock(dd) => DeprecatedBy(b, dd)
    case _ => b
  }

  function BlocksVisited(b: VariableDescription, blocks: seq<M.Block>): VariableDescription {
    if blocks == [] then b else VisitedBlock(BlocksVisited(b, blocks[..|blocks| - 1]), blocks[|blocks| - 1])
  }

  /** read(comments, trailingComment) as a value, with the description parser as
      a parameter; the trailing comment is read as a comment of one token. */
  function VariableDescriptionOf(comments: seq<Token>, trailing: Option<Token>,
                                 parse: string -> M.MethodDescriptionCtx): (d: VariableDescription)
    ensures d.description == Some(Strip(CommentText(comments))) && d.range == Some(CreateFromTokens(comments))
    ensures d.trailingDescription.Some? <==> trailing.Some?
    decreases if trailing.Some? then 1 else 0
  {
    var trailingDescription := if trailing.None? then None else Some(VariableDescriptionOf([trailing.value], None, parse));
    var text := CommentText(comments);
    var ast := parse(text);
    var builder := NewBuilder.(description := Some(Strip(text)), links := Some(ReadLinks(ast.tree)),
                               range := Some(CreateFromTokens(comments)), trailingDescription := trailingDescription);
    BlocksVisitedEffect(builder, ast.blocks);
    BlocksVisited(builder, ast.blocks)
  }

  class VariableDescriptionReader {
    var builder: VariableDescription
    const lineShift: int
    const firstLineCharShift: int

    constructor (range: SimpleRange)
      ensures builder == NewBuilder
      ensures lineShift == M.LineShift(range) && firstLineCharShift == M.CharShift(range)
    {
      builder := NewBuilder;
      lineShift := if range.startLine - 1 > 0 then range.startLine - 1 else 0;
      firstLineCharShift := if range.startCharacter - 1 > 0 then range.startCharacter - 1 else 0;
    }

    /** The visitor's default walk over the blocks, in order. */
    method VisitMethodDescription(ctx: M.MethodDescriptionCtx)
      modifies this
      ensures builder == BlocksVisited(old(builder), ctx.blocks)
    {
      ghost var start := builder;
      var i := 0;
      while i < |ctx.blocks|
        invariant 0 <= i <= |ctx.blocks|
        invariant builder == BlocksVisited(start, ctx.blocks[..i])
      {
        assert ctx.blocks[..i + 1][..i] == ctx.blocks[..i];
        match ctx.blocks[i] {
          case DescriptionBlock(strings) => VisitDescriptionBlock(strings);
          case DeprecateBlock(dd) => VisitDeprecateBlock(dd);
          case _ =>
        }
        i := i + 1;
      }
      assert ctx.blocks[..i] == ctx.blocks;
    }

    method VisitDeprecateBlock(deprecateDescription: Option<RuleNode>)
      modifies this
      ensures builder == DeprecatedBy(old(builder), deprecateDescription)
    {
      builder := builder.(deprecated := true);
      if deprecateDescription.Some? {
        builder := builder.(deprecationInfo := Some(Strip(NodeText(deprecateDescription.value))));
      } else {
        builder := builder.(deprecationInfo := Some([]));
      }
    }

    /** visitDescriptionBlock: each line's extractText, joined by "\n" and stripped. */
    method VisitDescriptionBlock(strings: seq<RuleNode>)
      modifies this
      ensures builder == old(builder).(purposeDescription := Some(M.BlockText(strings)))
    {
      builder := builder.(purposeDescription := Some(M.BlockText(strings)));
    }
  }

  /** read(comments, trailingComment): a reader at the comment's range sets the
      description, links, range and trailing description, then visits the tree. */
  method Read(comments: seq<Token>, trailing: Option<Token>, parse: string -> M.MethodDescriptionCtx)
    returns (d: VariableDescription)
    ensures d == VariableDescriptionOf(comments, trailing, parse)
    decreases if trailing.Some? then 1 else 0
  {
    var trailingDescription := None;
    if trailing.Some? {
      var t := Read([trailing.value], None, parse);
      trailingDescription := Some(t);
    }
    var text := CommentText(comments);
    var range := CreateFromTokens(comments);
    var ast := parse(text);
    var reader := new VariableDescriptionReader(range);
    reader.builder := reader.builder.(description := Some(Strip(text)), links := Some(ReadLinks(ast.tree)),
                                      range := Some(range), trailingDescription := trailingDescription);
    reader.VisitMethodDescription(ast);
    d := reader.builder;
  }

  /** The blocks in order keep the header; the variable is deprecated exactly
      when some block is a deprecate block, and has a purpose exactly when
      some block is a description block (each stripped). */
  lemma {:induction false} BlocksVisitedEffect(b: VariableDescription, blocks: seq<M.Block>)
    ensures var r := BlocksVisited(b, blocks);
      r.description == b.description && r.links == b.links && r.range == b.range
      && r.trailingDescription == b.trailingDescription
      && (r.deprecated <==> b.deprecated || M.HasBlock(blocks, M.DeprecateKind))
      && (!M.HasBlock(blocks, M.DeprecateKind) ==> r.deprecationInfo == b.deprecationInfo)
      && (M.HasBlock(blocks, M.DeprecateKind) ==> r.deprecationInfo.Some? && IsStripped(r.deprecationInfo.value))
      && (!M.HasBlock(blocks, M.DescriptionKind) ==> r.purposeDescription == b.purposeDescription)
      && (M.HasBlock(blocks, M.DescriptionKind) ==> r.purposeDescription.Some? && IsStripped(r.purposeDescription.value))
  {
    if blocks != [] {
      BlocksVisitedEffect(b, blocks[..|blocks| - 1]);
      M.HasBlockSnoc(blocks, M.DeprecateKind);
      M.HasBlockSnoc(blocks, M.DescriptionKind);
    } else {
      assert !M.HasBlock(blocks, M.DeprecateKind) && !M.HasBlock(blocks, M.DescriptionKind);
    }
  }

  /** read: the description is the comment text stripped, with the tree's links
      and the comment's range; the trailing description is there exactly when
      a trailing comment is given, and is that one token read as a comment;
      deprecation and purpose come from their blocks, stripped. */
  lemma VariableDescriptionRead(comments: seq<Token>, trailing: Option<Token>, parse: string -> M.MethodDescriptionCtx)
    ensures var text := CommentText(comments);
      var blocks := parse(text).blocks;
      var d := VariableDescriptionOf(comments, trailing, parse);
      d.description == Some(Strip(text)) && d.links == Some(ReadLinks(parse(text).tree))
      && d.range == Some(CreateFromTokens(comments))
      && (d.trailingDescription.Some? <==> trailing.Some?)
      && (trailing.Some? ==> d.trailingDescription == Some(VariableDescriptionOf([trailing.value], None, parse)))
      && (d.deprecated <==> M.HasBlock(blocks, M.DeprecateKind))
      && (!M.HasBlock(blocks, M.DeprecateKind) ==> d.deprecationInfo == None)
      && (d.deprecationInfo.Some? ==> IsStripped(d.deprecationInfo.value))
      && (d.purposeDescription.Some? <==> M.HasBlock(blocks, M.DescriptionKind))
      && (d.purposeDescription.Some? ==> IsStripped(d.purposeDescription.value))
  {
    var text := CommentText(comments);
    var ast := parse(text);
    var trailingDescription := if trailing.None? then None else Some(VariableDescriptionOf([trailing.value], None, parse));
    var builder := NewBuilder.(description := Some(Strip(text)), links := Some(ReadLinks(ast.tree)),
                               range := Some(CreateFromTokens(comments)), trailingDescription := trailingDescription);
    BlocksVisitedEffect(builder, ast.blocks);
  }

  /** A trailing comment's description is that token's text, stripped, over the
      token's own range, and has no trailing description of its own. */
  lemma TrailingDescription(comments: seq<Token>, t: Token, parse: string -> M.MethodDescriptionCtx)
    ensures var d := VariableDescriptionOf(comments, Some(t), parse).trailingDescription;
      d.Some? && d.value.description == Some(Strip(t.text)) && d.value.range == Some(CreateFromToken(t))
      && d.value.trailingDescription == None
  {
    VariableDescriptionRead(comments, Some(t), parse);
    VariableDescriptionRead([t], None, parse);
    assert CommentText([t]) == t.text;
  }
}
