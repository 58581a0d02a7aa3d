/**
 * The description model built from documentation comments: type descriptions
 * in three variants (simple, collection, hyperlink) and parameter
 * descriptions, each tied to a DescriptionElement marking where it came from.
 */
module Descriptions {
  import opened Text
  import opened SimpleRanges
  import opened Hyperlinks

  /** DescriptionElement.Type: what a marked piece of the comment is. */
  datatype ElementType =
    | UNKNOWN | PARAMETER_NAME | TYPE_NAME
    | DEPRECATE_KEYWORD | EXAMPLE_KEYWORD | PARAMETERS_KEYWORD | RETURNS_KEYWORD

  datatype DescriptionElement = DescriptionElement(range: SimpleRange, elementType: ElementType)

  /** TypeDescription.Variant */
  datatype Variant = SIMPLE | COLLECTION | HYPERLINK

  datatype TypeDescription =
    | SimpleTypeDescription(name: string, description: string, fields: seq<ParameterDescription>,
                            element: DescriptionElement)
    | CollectionTypeDescription(name: string, description: string, fields: seq<ParameterDescription>,
                                collectionName: string, valueType: TypeDescription,
                                element: DescriptionElement)
    | HyperlinkTypeDescription(name: string, description: string, fields: seq<ParameterDescription>,
                               hyperlink: Hyperlink, element: DescriptionElement)

  datatype ParameterDescription = ParameterDescription(name: string, element: DescriptionElement,
                                                       types: seq<TypeDescription>)

  /** variant(): each class answers its own case. */
  function VariantOf(t: TypeDescription): (v: Variant)
    ensures v == SIMPLE <==> t.SimpleTypeDescription?
    ensures v == COLLECTION <==> t.CollectionTypeDescription?
    ensures v == HYPERLINK <==> t.HyperlinkTypeDescription?
  {
    match t
    case SimpleTypeDescription(_, _, _, _) => SIMPLE
    case CollectionTypeDescription(_, _, _, _, _, _) => COLLECTION
    case HyperlinkTypeDescription(_, _, _, _, _) => HYPERLINK
  }

  /** SimpleTypeDescription.EMPTY */
  const EMPTY: TypeDescription :=
    SimpleTypeDescription("", "", [], DescriptionElement(SimpleRange(0, 0, 0, 0), UNKNOWN))

  /** SimpleTypeDescription.create: EMPTY when name and description are both
      blank, otherwise both stripped, with fields and element as given. */
  function CreateSimple(name: string, element: DescriptionElement, description: string,
                        fieldList: seq<ParameterDescription>): (t: TypeDescription)
    ensures t.SimpleTypeDescription? && IsStripped(t.name) && IsStripped(t.description)
    ensures IsBlank(name) && IsBlank(description) ==> t == EMPTY
    ensures !(IsBlank(name) && IsBlank(description)) ==>
      t.name == Strip(name) && t.description == Strip(description) && t.fields == fieldList && t.element == element
  {
    if IsBlank(name) && IsBlank(description) then EMPTY
    else SimpleTypeDescription(Strip(name), Strip(description), fieldList, element)
  }

  /** The blank check only decides between EMPTY and a stripped copy: the
      name and description come out as their stripped inputs either way. */
  lemma CreateSimpleStrips(name: string, element: DescriptionElement, description: string,
                           fieldList: seq<ParameterDescription>)
    ensures var t := CreateSimple(name, element, description, fieldList);
      t.name == Strip(name) && t.description == Strip(description)
  {
  }

  /** The text a collection type is named by: `Collection<Value>` when the value
      type has a name, otherwise the collection name alone. */
  function CollectionTypeText(collectionName: string, valueTypeName: string): string {
    if valueTypeName == [] then collectionName else collectionName + "<" + valueTypeName + ">"
  }

  /** CollectionTypeDescription.create */
  function CreateCollection(collectionName: string, element: DescriptionElement, description: string,
                            valueType: TypeDescription, fieldList: seq<ParameterDescription>): (t: TypeDescription)
    ensures t.CollectionTypeDescription?
    ensures t.name == Strip(CollectionTypeText(collectionName, valueType.name))
    ensures t.collectionName == Strip(collectionName) && t.description == Strip(description)
    ensures t.valueType == valueType && t.fields == fieldList && t.element == element
  {
    CollectionTypeDescription(Strip(CollectionTypeText(collectionName, valueType.name)), Strip(description),
                              fieldList, Strip(collectionName), valueType, element)
  }

  /** A collection whose value type is EMPTY is named by its collection name alone. */
  lemma CollectionOfEmpty(collectionName: string, element: DescriptionElement, description: string,
                          fieldList: seq<ParameterDescription>)
    ensures var t := CreateCollection(collectionName, element, description, EMPTY, fieldList);
      t.name == t.collectionName == Strip(collectionName)
  {
  }

  /** With a stripped collection name and a named value type the name is
      exactly `Collection<Value>`. */
  lemma CollectionName(collectionName: string, element: DescriptionElement, description: string,
                       valueType: TypeDescription, fieldList: seq<ParameterDescription>)
    requires IsStripped(collectionName) && valueType.name != []
    ensures CreateCollection(collectionName, element, description, valueType, fieldList).name
            == collectionName + "<" + valueType.name + ">"
  {
    var s := collectionName + "<" + valueType.name + ">";
    assert s[|s| - 1] == '>';
    assert s[0] == if collectionName == [] then '<' else collectionName[0];
    StrippedIsFixpoint(s);
  }

  /** HyperlinkTypeDescription.create: named by the link, description stripped. */
  function CreateHyperlink(hyperlink: Hyperlink, element: DescriptionElement, description: string,
                           fieldList: seq<ParameterDescription>): (t: TypeDescription)
    ensures t.HyperlinkTypeDescription? && t.hyperlink == hyperlink
    ensures t.name == t.hyperlink.link && t.description == Strip(description)
    ensures t.fields == fieldList && t.element == element
  {
    HyperlinkTypeDescription(hyperlink.link, Strip(description), fieldList, hyperlink, element)
  }

  /** new ParameterDescription(name, element, types): the name is stripped. */
  function NewParameter(name: string, element: DescriptionElement, types: seq<TypeDescription>): (p: ParameterDescription)
    ensures IsStripped(p.name) && p.name == Strip(name) && p.element == element && p.types == types
  {
    ParameterDescription(Strip(name), element, types)
  }

  /** isHyperlink(): exactly one type, and that type is a hyperlink. */
  predicate IsHyperlink(p: ParameterDescription)
    ensures IsHyperlink(p) <==> |p.types| == 1 && p.types[0].HyperlinkTypeDescription?
  {
    |p.types| == 1 && VariantOf(p.types[0]) == HYPERLINK
  }

  /** link(): the single hyperlink type's link, or EMPTY. */
  function Link(p: ParameterDescription): (h: Hyperlink)
    ensures IsHyperlink(p) ==> h == p.types[0].hyperlink
    ensures !IsHyperlink(p) ==> h == Hyperlinks.EMPTY
  {
    if IsHyperlink(p) then p.types[0].hyperlink else Hyperlinks.EMPTY
  }

  /** A parameter described by one hyperlink type links where that type does,
      and the type is also named by that link. */
  lemma HyperlinkParameter(name: string, element: DescriptionElement, h: Hyperlink,
                           typeElement: DescriptionElement, description: string)
    ensures var p := NewParameter(name, element, [CreateHyperlink(h, typeElement, description, [])]);
      IsHyperlink(p) && Link(p) == h && p.types[0].name == h.link
  {
  }

  /** TypeDescription.allElements: the type's element, then each field's elements in order. */
  function AllElements(t: TypeDescription): (r: seq<DescriptionElement>)
    ensures |r| >= 1 + |t.fields| && r[0] == t.element
  {
    [t.element] + FieldsElements(t.fields)
  }

  function FieldsElements(fs: seq<ParameterDescription>): (r: seq<DescriptionElement>)
    ensures |r| >= |fs|
  {
    if fs == [] then [] else ParameterElements(fs[0]) + FieldsElements(fs[1..])
  }

  /** ParameterDescription.allElements: the parameter's element, then each type's elements in order. */
  function ParameterElements(p: ParameterDescription): (r: seq<DescriptionElement>)
    ensures |r| >= 1 + |p.types| && r[0] == p.element
  {
    [p.element] + TypesElements(p.types)
  }

  function TypesElements(ts: seq<TypeDescription>): (r: seq<DescriptionElement>)
    ensures |r| >= |ts|
  {
    if ts == [] then [] else AllElements(ts[0]) + TypesElements(ts[1..])
  }

  /** The number of elements a type contributes: one for itself, then what each field contributes. */
  function FieldsSize(fs: seq<ParameterDescription>): nat {
    if fs == [] then 0 else |ParameterElements(fs[0])| + FieldsSize(fs[1..])
  }

  /** allElements starts with the type's own element and has one more entry
      than its fields together. */
  lemma {:induction false} AllElementsShape(t: TypeDescription)
    ensures |AllElements(t)| == 1 + FieldsSize(t.fields) && AllElements(t)[0] == t.element
  {
    FieldsElementsSize(t.fields);
  }

  lemma {:induction false} FieldsElementsSize(fs: seq<ParameterDescription>)
    ensures |FieldsElements(fs)| == FieldsSize(fs)
  {
    if fs != [] {
      FieldsElementsSize(fs[1..]);
    }
  }

  lemma {:induction false} FieldsElementsAppend(a: seq<ParameterDescription>, b: seq<ParameterDescription>)
    ensures FieldsElements(a + b) == FieldsElements(a) + FieldsElements(b)
  {
    if a == [] {
      assert a + b == b;
    } else {
      calc {
        FieldsElements(a + b);
        ParameterElements((a + b)[0]) + FieldsElements((a + b)[1..]);
        { assert (a + b)[0] == a[0] && (a + b)[1..] == a[1..] + b; }
        ParameterElements(a[0]) + FieldsElements(a[1..] + b);
        { FieldsElementsAppend(a[1..], b); }
        ParameterElements(a[0]) + (FieldsElements(a[1..]) + FieldsElements(b));
        FieldsElements(a) + FieldsElements(b);
      }
    }
  }

  /** Field i's elements follow the type's own element and those of the fields before it. */
  lemma FieldElementsInOrder(t: TypeDescription, i: nat)
    requires i < |t.fields|
    ensures var all := AllElements(t);
      var before := 1 + |FieldsElements(t.fields[..i])|;
      var mine := ParameterElements(t.fields[i]);
      before + |mine| <= |all| && all[before..before + |mine|] == mine
  {
    var fs := t.fields;
    assert fs == fs[..i] + fs[i..];
    FieldsElementsAppend(fs[..i], fs[i..]);
    assert FieldsElements(fs[i..]) == ParameterElements(fs[i]) + FieldsElements(fs[i + 1..]) by {
      assert fs[i..][0] == fs[i] && fs[i..][1..] == fs[i + 1..];
    }
  }

  lemma {:induction false} TypesElementsAppend(a: seq<TypeDescription>, b: seq<TypeDescription>)
    ensures TypesElements(a + b) == TypesElements(a) + TypesElements(b)
  {
    if a == [] {
      assert a + b == b;
    } else {
      calc {
        TypesElements(a + b);
        AllElements((a + b)[0]) + TypesElements((a + b)[1..]);
        { assert (a + b)[0] == a[0] && (a + b)[1..] == a[1..] + b; }
        AllElements(a[0]) + TypesElements(a[1..] + b);
        { TypesElementsAppend(a[1..], b); }
        AllElements(a[0]) + (TypesElements(a[1..]) + TypesElements(b));
        TypesElements(a) + TypesElements(b);
      }
    }
  }

  /** Type i's elements follow the parameter's own element and those of the types before it. */
  lemma TypeElementsInOrder(p: ParameterDescription, i: nat)
    requires i < |p.types|
    ensures var all := ParameterElements(p);
      var before := 1 + |TypesElements(p.types[..i])|;
      var mine := AllElements(p.types[i]);
      before + |mine| <= |all| && all[before..before + |mine|] == mine
  {
    var ts := p.types;
    assert ts == ts[..i] + ts[i..];
    TypesElementsAppend(ts[..i], ts[i..]);
    assert TypesElements(ts[i..]) == AllElements(ts[i]) + TypesElements(ts[i + 1..]) by {
      assert ts[i..][0] == ts[i] && ts[i..][1..] == ts[i + 1..];
    }
  }
}
