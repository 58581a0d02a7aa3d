/**
 * Parse trees as ANTLR builds them, and BSLParserRuleContext, the rule node
 * that caches its text and the list of its tokens.
 */
module ParseTrees {
  import opened Wrappers
  import opened SimpleRanges
  import opened Util

  /** What the core needs to know about a rule node's rule: the description
      grammar's startPart and hyperlink rules (with a hyperlink's labelled
      link and linkParams tokens), or any other rule. */
  datatype RuleKind =
    | StartPart
    | HyperlinkRule(link: Option<Token>, linkParams: Option<Token>)
    | OtherRule(ruleIndex: int)

  datatype ParseTree = Terminal(symbol: Token) | Node(rule: RuleNode)

  /** A rule node: its rule, the ANTLR state that invoked it (-1 for none) and its children. */
  datatype RuleNode = RuleNode(kind: RuleKind, invokingState: int, children: seq<ParseTree>)

  /** The terminal symbols of a tree, left to right. */
  function Tokens(t: ParseTree): seq<Token> {
    match t
    case Terminal(s) => [s]
    case Node(n) => ChildrenTokens(n.children)
  }

  /** The terminal symbols of a row of sibling trees, left to right. */
  function ChildrenTokens(cs: seq<ParseTree>): seq<Token> {
    if cs == [] then [] else Tokens(cs[0]) + ChildrenTokens(cs[1..])
  }

  function NodeTokens(n: RuleNode): seq<Token> {
    Tokens(Node(n))
  }

  /** RuleContext.getText: the children's texts run together; a rule without children has "". */
  function Text(t: ParseTree): string {
    match t
    case Terminal(s) => s.text
    case Node(n) => ChildrenText(n.children)
  }

  function ChildrenText(cs: seq<ParseTree>): string {
    if cs == [] then [] else Text(cs[0]) + ChildrenText(cs[1..])
  }

  function NodeText(n: RuleNode): string {
    Text(Node(n))
  }

  /** The texts of some tokens, run together. */
  function TokensText(ts: seq<Token>): string {
    if ts == [] then [] else ts[0].text + TokensText(ts[1..])
  }

  lemma {:induction false} TokensTextAppend(a: seq<Token>, b: seq<Token>)
    ensures TokensText(a + b) == TokensText(a) + TokensText(b)
  {
    if a != [] {
      calc {
        TokensText(a + b);
        (a + b)[0].text + TokensText((a + b)[1..]);
        { assert (a + b)[0] == a[0] && (a + b)[1..] == a[1..] + b; }
        a[0].text + TokensText(a[1..] + b);
        { TokensTextAppend(a[1..], b); }
        a[0].text + (TokensText(a[1..]) + TokensText(b));
        TokensText(a) + TokensText(b);
      }
    } else {
      assert a + b == b;
    }
  }

  /** The text of a tree is exactly the text of its tokens: getText and
      getTokens see the same leaves. */
  lemma {:induction false} TextIsTokensText(t: ParseTree)
    ensures Text(t) == TokensText(Tokens(t))
  {
    match t
    case Terminal(s) =>
      assert TokensText([s]) == s.text + TokensText([]);
    case Node(n) =>
      ChildrenTextIsTokensText(n.children);
  }

  lemma {:induction false} ChildrenTextIsTokensText(cs: seq<ParseTree>)
    ensures ChildrenText(cs) == TokensText(ChildrenTokens(cs))
  {
    if cs != [] {
      TextIsTokensText(cs[0]);
      ChildrenTextIsTokensText(cs[1..]);
      TokensTextAppend(Tokens(cs[0]), ChildrenTokens(cs[1..]));
    }
  }

  /** The children's tokens split over any division of the children. */
  lemma {:induction false} ChildrenTokensAppend(a: seq<ParseTree>, b: seq<ParseTree>)
    ensures ChildrenTokens(a + b) == ChildrenTokens(a) + ChildrenTokens(b)
  {
    if a != [] {
      calc {
        ChildrenTokens(a + b);
        Tokens((a + b)[0]) + ChildrenTokens((a + b)[1..]);
        { assert (a + b)[0] == a[0] && (a + b)[1..] == a[1..] + b; }
        Tokens(a[0]) + ChildrenTokens(a[1..] + b);
        { ChildrenTokensAppend(a[1..], b); }
        Tokens(a[0]) + (ChildrenTokens(a[1..]) + ChildrenTokens(b));
        ChildrenTokens(a) + ChildrenTokens(b);
      }
    } else {
      assert a + b == b;
    }
  }

  lemma ChildrenTokensSnoc(cs: seq<ParseTree>, i: nat)
    requires i < |cs|
    ensures ChildrenTokens(cs[..i + 1]) == ChildrenTokens(cs[..i]) + Tokens(cs[i])
  {
    assert cs[..i + 1] == cs[..i] + [cs[i]];
    ChildrenTokensAppend(cs[..i], [cs[i]]);
    assert ChildrenTokens([cs[i]]) == Tokens(cs[i]) + ChildrenTokens([]);
  }

  /** Child i's tokens sit in its parent's list right after those of the children before it. */
  lemma ChildTokensSlice(n: RuleNode, i: nat)
    requires i < |n.children|
    ensures var all := NodeTokens(n);
      var before := |ChildrenTokens(n.children[..i])|;
      before + |Tokens(n.children[i])| <= |all|
      && all[before..before + |Tokens(n.children[i])|] == Tokens(n.children[i])
  {
    var cs := n.children;
    assert cs == cs[..i] + cs[i..];
    ChildrenTokensAppend(cs[..i], cs[i..]);
    assert cs[i..][1..] == cs[i + 1..];
  }

  /** A growable token list (the ArrayList the traversal fills). */
  class TokenList {
    var items: seq<Token>

    constructor ()
      ensures items == []
    {
      items := [];
    }

    method Add(t: Token)
      modifies this
      ensures items == old(items) + [t]
    {
      items := items + [t];
    }
  }

  function Children(t: ParseTree): seq<ParseTree> {
    if t.Node? then t.rule.children else []
  }

  /** getTokensFromParseTree(tree, tokens): appends the terminal symbols below
      `tree` in left-to-right depth-first order. */
  method GetTokensFromParseTree(tree: ParseTree, tokens: TokenList)
    modifies tokens
    ensures tokens.items == old(tokens.items) + ChildrenTokens(Children(tree))
    decreases tree
  {
    var children := Children(tree);
    var i := 0;
    while i < |children|
      invariant 0 <= i <= |children|
      invariant tokens.items == old(tokens.items) + ChildrenTokens(children[..i])
    {
      var child := children[i];
      ghost var before := tokens.items;
      if child.Terminal? {
        tokens.Add(child.symbol);
      } else {
        GetTokensFromParseTree(child, tokens);
      }
      assert tokens.items == before + Tokens(child);
      ChildrenTokensSnoc(children, i);
      i := i + 1;
    }
    assert children[..i] == children;
  }

  /** A rule node of the BSL parser, with its text and its tokens computed once. */
  class BSLParserRuleContext {
    const kind: RuleKind
    const invokingState: int
    const children: seq<ParseTree>
    const text: Lazy<string>
    const tokens: Lazy<seq<Token>>

    /** The node as a tree value. */
    function Tree(): ParseTree
      reads this
    {
      Node(RuleNode(kind, invokingState, children))
    }

    /** The caches hold the suppliers they were built with: the node's text and its tokens. */
    ghost predicate Valid()
      reads this, text, tokens
    {
      text.supplier.Some? && text.supplier.value() == Some(Text(Tree()))
      && tokens.supplier.Some? && tokens.supplier.value() == Some(Tokens(Tree()))
    }

    constructor (kind: RuleKind, invokingState: int, children: seq<ParseTree>)
      ensures this.kind == kind && this.invokingState == invokingState && this.children == children
      ensures fresh(text) && fresh(tokens) && text.value == None && tokens.value == None
      ensures Valid()
    {
      this.kind := kind;
      this.invokingState := invokingState;
      this.children := children;
      var tree := Node(RuleNode(kind, invokingState, children));
      text := new Lazy<string>.WithSupplier(Some(() => Some(Text(tree))));
      tokens := new Lazy<seq<Token>>.WithSupplier(Some(() => Some(Tokens(tree))));
    }

    /** computeTokens: no children give no tokens; otherwise the subtree's terminals. */
    method ComputeTokens() returns (r: seq<Token>)
      ensures r == Tokens(Tree())
    {
      if children == [] {
        return [];
      }
      var results := new TokenList();
      GetTokensFromParseTree(Tree(), results);
      r := results.items;
    }

    /** getTokens: the first call stores the node's tokens, later calls return the stored list. */
    method GetTokens() returns (r: seq<Token>)
      requires Valid()
      modifies tokens
      ensures old(tokens.value).Some? ==> r == old(tokens.value).value
      ensures old(tokens.value).None? ==> r == Tokens(Tree())
      ensures tokens.value == Some(r) && Valid()
    {
      var res := tokens.GetOrCompute();
      r := res.value;
    }

    /** getText: the first call stores the node's text, later calls return the stored text. */
    method GetText() returns (r: string)
      requires Valid()
      modifies text
      ensures old(text.value).Some? ==> r == old(text.value).value
      ensures old(text.value).None? ==> r == Text(Tree())
      ensures text.value == Some(r) && Valid()
    {
      var res := text.GetOrCompute();
      r := res.value;
    }
  }
}
