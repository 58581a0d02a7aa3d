/**
 * Hyperlink: a reference `link(params)` written in a description comment.
 */
module Hyperlinks {
  import opened Wrappers
  import opened Text

  datatype Hyperlink = Hyperlink(link: string, params: string)

  const EMPTY: Hyperlink := Hyperlink("", "")

  /** create(link, params): null reads as ""; an empty link gives EMPTY. */
  function Create(link: Option<string>, params: Option<string>): (h: Hyperlink)
    ensures link.GetOr([]) == [] ==> h == EMPTY
    ensures link.GetOr([]) != [] ==> h.link == link.value && h.params == params.GetOr([])
  {
    var linkText := link.GetOr([]);
    var paramsText := params.GetOr([]);
    if linkText == [] then EMPTY else Hyperlink(linkText, paramsText)
  }

  /** The first '(' is a split point: it is neither the first nor the last character. */
  predicate HasSplit(p: string) {
    0 < IndexOf(p, '(') && IndexOf(p, '(') + 1 < |p|
  }

  /** Where the parameters end: at the last ')', or at the end when there is none. */
  function ParamsEnd(p: string): (e: int)
    ensures -1 <= e <= |p|
    ensures ')' in p ==> e == LastIndexOf(p, ')')
    ensures ')' !in p ==> e == |p|
  {
    if LastIndexOf(p, ')') < 0 then |p| else LastIndexOf(p, ')')
  }

  /** create(presentation): the text before the first '(' is the link and the
      text from there to the last ')' (or the end) the parameters; without such
      a '(' the whole text is the link. When the last ')' comes before the
      first '(', cutting out the parameters fails. */
  function CreateFromPresentation(p: string): (r: Result<Hyperlink>)
    ensures r.Failure? <==> HasSplit(p) && ParamsEnd(p) < IndexOf(p, '(') + 1
    ensures r.Failure? ==> r.error == IndexOutOfBounds
    ensures !HasSplit(p) ==> r == Success(Create(Some(p), Some("")))
    ensures r.Success? && HasSplit(p) ==>
      var pos := IndexOf(p, '(');
      r.value.link == p[..pos] && r.value.params == p[pos + 1..ParamsEnd(p)] && '(' !in r.value.link
  {
    var pos := IndexOf(p, '(');
    if pos > 0 && pos + 1 < |p| then
      var posEnd := ParamsEnd(p);
      if posEnd < pos + 1 then Failure(IndexOutOfBounds)
      else Success(Create(Some(p[..pos]), Some(p[pos + 1..posEnd])))
    else
      Success(Create(Some(p), Some("")))
  }

  /** equals: comparing the link and params texts is comparing the hyperlinks themselves. */
  function Equals(a: Hyperlink, b: Hyperlink): (e: bool)
    ensures e <==> a == b
  {
    a.link == b.link && a.params == b.params
  }

  /** toString: the link, followed by "(params)" when there are parameters. */
  function ToString(h: Hyperlink): (s: string)
    ensures h.link <= s && |s| == |h.link| + (if h.params == [] then 0 else |h.params| + 2)
  {
    h.link + (if h.params == [] then [] else "(" + h.params + ")")
  }

  /** Reading back a rendered link gives the link again, as long as its link
      part is non-empty and holds no '('. */
  lemma PresentationOfToString(h: Hyperlink)
    requires h.link != [] && '(' !in h.link
    ensures CreateFromPresentation(ToString(h)) == Success(h)
  {
    var s := ToString(h);
    if h.params == [] {
      assert s == h.link;
      assert IndexOf(s, '(') == -1;
    } else {
      var pos := |h.link|;
      var end := |s| - 1;
      assert s == h.link + ("(" + h.params + ")");
      assert s[pos] == '(' && s[..pos] == h.link;
      assert s[end] == ')' && s[end + 1..] == [];
      assert s[pos + 1..end] == h.params;
      SplitAt(s, pos, end);
    }
  }

  /** Conversely, a presentation `link(params)` with non-empty params ending in
      ')', or a non-empty presentation without '(', is what toString renders. */
  lemma ToStringOfPresentation(p: string)
    requires CreateFromPresentation(p).Success?
    requires (HasSplit(p) && p[|p| - 1] == ')' && CreateFromPresentation(p).value.params != [])
          || (p != [] && '(' !in p)
    ensures ToString(CreateFromPresentation(p).value) == p
  {
    var h := CreateFromPresentation(p).value;
    if HasSplit(p) {
      var pos := IndexOf(p, '(');
      assert LastIndexOf(p, ')') == |p| - 1;
      assert p == p[..pos] + "(" + p[pos + 1..|p| - 1] + ")";
    }
  }

  /** The create(link, params) and equals cases of HyperlinkTest. */
  lemma CreateExamples()
    ensures Create(Some("example"), Some("param1,param2")) == Hyperlink("example", "param1,param2")
    ensures Create(None, Some("param1,param2")) == EMPTY
    ensures Create(Some(""), Some("param1,param2")) == EMPTY
    ensures Create(Some("example"), None) == Hyperlink("example", "")
    ensures Equals(Create(Some("example"), Some("param1,param2")), Create(Some("example"), Some("param1,param2")))
    ensures !Equals(Create(Some("example1"), Some("param1,param2")), Create(Some("example2"), Some("param1,param2")))
    ensures !Equals(Create(Some("example"), Some("param1,param2")), Create(Some("example"), Some("param3,param4")))
  {
  }

  /** The split in terms of positions: a first '(' at pos, neither first nor
      last, and a last ')' at end after it give link p[..pos] and params
      p[pos+1..end]. */
  lemma SplitAt(p: string, pos: nat, end: nat)
    requires 0 < pos && pos + 1 <= end < |p| && p[pos] == '(' && '(' !in p[..pos]
    requires p[end] == ')' && ')' !in p[end + 1..]
    ensures CreateFromPresentation(p) == Success(Hyperlink(p[..pos], p[pos + 1..end]))
  {
    IndexOfAt(p, '(', pos);
    LastIndexOfAt(p, ')', end);
  }

  /** The create(presentation) cases of HyperlinkTest. */
  lemma PresentationWithParams(p: string)
    requires p == "example(param1,param2)"
    ensures CreateFromPresentation(p) == Success(Hyperlink("example", "param1,param2"))
  {
    assert p == ToString(Hyperlink("example", "param1,param2"));
    PresentationOfToString(Hyperlink("example", "param1,param2"));
  }

  lemma PresentationWithoutParams(p: string)
    requires p == "example"
    ensures CreateFromPresentation(p) == Success(Hyperlink("example", ""))
  {
    assert '(' !in p;
  }

  lemma PresentationWithEmptyParams(p: string)
    requires p == "example()"
    ensures CreateFromPresentation(p) == Success(Hyperlink("example", ""))
  {
    SplitAt(p, 7, 8);
    assert p[..7] == "example";
    assert p[8..8] == "";
  }
}
