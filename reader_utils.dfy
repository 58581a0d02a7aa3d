/**
 * ReaderUtils: the helpers every description reader shares. extractText
 * reads a line's text without its leading comment marker (the startPart
 * rule), and readLinks collects the hyperlink nodes of a description tree.
 */
module ReaderUtils {
  import opened Wrappers
  import opened Text
  import opened SimpleRanges
  import opened ParseTrees
  import opened Hyperlinks

  /** The text of a comment: its tokens' texts joined by "\n". */
  function CommentText(comments: seq<Token>): (r: string)
    ensures comments == [] ==> r == []
    ensures |comments| == 1 ==> r == comments[0].text
    ensures comments != [] ==> comments[0].text <= r
  {
    Join(seq(|comments|, k requires 0 <= k < |comments| => comments[k].text), "\n")
  }

  /** RuleContext.isEmpty: no ANTLR state invoked the rule. */
  predicate IsEmptyContext(n: RuleNode) {
    n.invokingState == -1
  }

  /** Every child but a startPart rule node contributes its text. */
  predicate CountsAsText(c: ParseTree) {
    !(c.Node? && c.rule.kind.StartPart?)
  }

  function PieceText(c: ParseTree): string {
    if CountsAsText(c) then ParseTrees.Text(c) else []
  }

  /** The children's texts run together, startPart children left out. */
  function TextWithoutStartParts(cs: seq<ParseTree>): (r: string)
    ensures |r| <= |ChildrenText(cs)|
  {
    if cs == [] then [] else PieceText(cs[0]) + TextWithoutStartParts(cs[1..])
  }

  lemma {:induction false} TextWithoutStartPartsAppend(a: seq<ParseTree>, b: seq<ParseTree>)
    ensures TextWithoutStartParts(a + b) == TextWithoutStartParts(a) + TextWithoutStartParts(b)
  {
    if a != [] {
      calc {
        TextWithoutStartParts(a + b);
        PieceText((a + b)[0]) + TextWithoutStartParts((a + b)[1..]);
        { assert (a + b)[0] == a[0] && (a + b)[1..] == a[1..] + b; }
        PieceText(a[0]) + TextWithoutStartParts(a[1..] + b);
        { TextWithoutStartPartsAppend(a[1..], b); }
        PieceText(a[0]) + (TextWithoutStartParts(a[1..]) + TextWithoutStartParts(b));
        TextWithoutStartParts(a) + TextWithoutStartParts(b);
      }
    } else {
      assert a + b == b;
    }
  }

  /** The text of a description line: its children but startPart, stripped. */
  function DescriptionString(n: RuleNode): (r: string)
    ensures IsStripped(r)
    ensures r == [] <==> IsBlank(TextWithoutStartParts(n.children))
  {
    Strip(TextWithoutStartParts(n.children))
  }

  /** extractText as a value: "" for a missing or empty context. */
  function ExtractedText(ctx: Option<RuleNode>): string {
    if ctx.None? || IsEmptyContext(ctx.value) then [] else DescriptionString(ctx.value)
  }

  /** extractText: joins the texts of the children other than startPart and strips the result. */
  method ExtractText(ctx: Option<RuleNode>) returns (r: string)
    ensures IsStripped(r)
    ensures ctx.None? || IsEmptyContext(ctx.value) ==> r == []
    ensures ctx.Some? && !IsEmptyContext(ctx.value) ==> r == Strip(TextWithoutStartParts(ctx.value.children))
    ensures r == ExtractedText(ctx)
  {
    if ctx.None? || IsEmptyContext(ctx.value) {
      return [];
    }
    var children := ctx.value.children;
    var strings := [];
    var i := 0;
    while i < |children|
      invariant 0 <= i <= |children|
      invariant strings == TextWithoutStartParts(children[..i])
    {
      var child := children[i];
      if CountsAsText(child) {
        strings := strings + ParseTrees.Text(child);
      }
      assert children[..i + 1] == children[..i] + [child];
      TextWithoutStartPartsAppend(children[..i], [child]);
      assert TextWithoutStartParts([child]) == PieceText(child) + TextWithoutStartParts([]);
      i := i + 1;
    }
    assert children[..i] == children;
    r := Strip(strings);
  }

  /** Without startPart children the line's text is the node's whole text, stripped. */
  lemma {:induction false} NoStartPartText(cs: seq<ParseTree>)
    requires forall k :: 0 <= k < |cs| ==> CountsAsText(cs[k])
    ensures TextWithoutStartParts(cs) == ChildrenText(cs)
  {
    if cs != [] {
      NoStartPartText(cs[1..]);
    }
  }

  /** A startPart child contributes nothing, wherever it stands among the children. */
  lemma StartPartIgnored(a: seq<ParseTree>, marker: RuleNode, b: seq<ParseTree>)
    requires marker.kind.StartPart?
    ensures TextWithoutStartParts(a + [Node(marker)] + b) == TextWithoutStartParts(a + b)
  {
    var m := [Node(marker)];
    assert m[1..] == [] && PieceText(m[0]) == [];
    assert TextWithoutStartParts(m) == [];
    calc {
      TextWithoutStartParts(a + m + b);
      { TextWithoutStartPartsAppend(a + m, b); }
      TextWithoutStartParts(a + m) + TextWithoutStartParts(b);
      { TextWithoutStartPartsAppend(a, m); }
      TextWithoutStartParts(a) + TextWithoutStartParts(b);
      { TextWithoutStartPartsAppend(a, b); }
      TextWithoutStartParts(a + b);
    }
  }

  /** The hyperlink nodes of a tree in pre-order, the root included
      (Trees.findAllRuleNodes with the hyperlink rule). */
  function HyperlinkNodes(t: ParseTree): (r: seq<RuleNode>)
    ensures forall k :: 0 <= k < |r| ==> r[k].kind.HyperlinkRule?
  {
    match t
    case Terminal(_) => []
    case Node(n) => (if n.kind.HyperlinkRule? then [n] else []) + ChildrenHyperlinkNodes(n.children)
  }

  function ChildrenHyperlinkNodes(cs: seq<ParseTree>): (r: seq<RuleNode>)
    ensures forall k :: 0 <= k < |r| ==> r[k].kind.HyperlinkRule?
  {
    if cs == [] then [] else HyperlinkNodes(cs[0]) + ChildrenHyperlinkNodes(cs[1..])
  }

  /** Whether a hyperlink rule node occurs anywhere in the tree. */
  predicate HasHyperlink(t: ParseTree) {
    match t
    case Terminal(_) => false
    case Node(n) => n.kind.HyperlinkRule? || exists k :: 0 <= k < |n.children| && HasHyperlink(n.children[k])
  }

  function TokenText(t: Option<Token>): string {
    if t.None? then [] else t.value.text
  }

  /** One hyperlink node as a Hyperlink: a missing link or params token reads as "". */
  function LinkOf(n: RuleNode): (h: Hyperlink)
    requires n.kind.HyperlinkRule?
    ensures n.kind.link.None? ==> h == Hyperlinks.EMPTY
    ensures TokenText(n.kind.link) != [] ==>
      h.link == TokenText(n.kind.link) && h.params == TokenText(n.kind.linkParams)
  {
    Hyperlinks.Create(Some(TokenText(n.kind.link)), Some(TokenText(n.kind.linkParams)))
  }

  /** readLinks: one Hyperlink per hyperlink node, in tree order. */
  function ReadLinks(ast: RuleNode): (links: seq<Hyperlink>)
    ensures |links| == |HyperlinkNodes(Node(ast))|
    ensures forall k :: 0 <= k < |links| ==> links[k] == LinkOf(HyperlinkNodes(Node(ast))[k])
  {
    var nodes := HyperlinkNodes(Node(ast));
    seq(|nodes|, k requires 0 <= k < |nodes| => LinkOf(nodes[k]))
  }

  /** The list of links is empty exactly when the tree holds no hyperlink node. */
  lemma ReadLinksEmpty(ast: RuleNode)
    ensures ReadLinks(ast) == [] <==> !HasHyperlink(Node(ast))
  {
    NoHyperlinkNodes(Node(ast));
  }

  lemma {:induction false} NoHyperlinkNodes(t: ParseTree)
    ensures HyperlinkNodes(t) == [] <==> !HasHyperlink(t)
  {
    match t
    case Terminal(_) =>
    case Node(n) =>
      NoChildrenHyperlinkNodes(n.children);
  }

  lemma {:induction false} NoChildrenHyperlinkNodes(cs: seq<ParseTree>)
    ensures ChildrenHyperlinkNodes(cs) == [] <==> forall k :: 0 <= k < |cs| ==> !HasHyperlink(cs[k])
  {
    if cs != [] {
      NoHyperlinkNodes(cs[0]);
      NoChildrenHyperlinkNodes(cs[1..]);
      forall k | 0 <= k < |cs[1..]|
        ensures cs[1..][k] == cs[k + 1]
      {
      }
    }
  }

  /** A hyperlink node's own link comes first, before those of the nodes below it. */
  lemma HyperlinkComesFirst(ast: RuleNode)
    requires ast.kind.HyperlinkRule?
    ensures ReadLinks(ast) != [] && ReadLinks(ast)[0] == LinkOf(ast)
  {
  }
}
