/**
 * The serializer: writes a tree of writeable elements as XML text. Each element prints its
 * explicit attributes, read back through the bean properties of the element, then either its
 * text contents on the same line, or its nested elements one level deeper (three more
 * spaces), or nothing at all, closing itself with `/>`.
 */
module Serializer {
  import opened Wrappers
  import opened Properties

  /** A name from getAttributeNames, and whether isExplicitAttribute holds for it. */
  datatype Attribute = Attribute(name: string, explicit: bool)

  /** A name from getNestedElementNames with the elements getNestedElements returns for it. */
  datatype Nested = Nested(name: string, elements: seq<WElement>)

  /**
   * A WriteableXMLElement: its element name, its attributes, the bean properties of its
   * class with the values their read methods return (an absent value is null), its text
   * contents (None is null) and its nested elements grouped by name, in the order the
   * element lists them.
   */
  datatype WElement = WElement(
    name: string,
    attributes: seq<Attribute>,
    properties: seq<Descriptor>,
    values: map<string, Value>,
    contents: Option<string>,
    groups: seq<Nested>)

  /** The first line of every generated document. */
  function Header(): string { "<?xml version='1.0' ?>" }

  /** What each level of nesting adds to the indentation. */
  function Indent(): string { "   " }

  // ---------------------------------------------------------------------------------
  // The specification of the output

  /**
   * getStringProperty: the text of the property `propertyName` of the element, looked up
   * under exactly that name. A property the class does not have, or whose value is null,
   * gives the empty text; a property without a read method is a failure.
   */
  function StringProperty(dates: DateCodec, e: WElement, propertyName: string): (r: Result<string, Error>)
    ensures r.Failure? <==> (FindProperty(e.properties, propertyName).Some?
                             && !FindProperty(e.properties, propertyName).value.readable)
    ensures r.Success? && (FindProperty(e.properties, propertyName).None? || propertyName !in e.values)
            ==> r.value == ""
    ensures r.Failure? ==> r.error == NoReadMethod(propertyName)
    ensures (FindProperty(e.properties, propertyName).Some? && FindProperty(e.properties, propertyName).value.readable
             && propertyName in e.values) ==> r == Success(ValueText(dates, e.values[propertyName]))
  {
    match FindProperty(e.properties, propertyName)
    case None => Success("")
    case Some(d) =>
      if !d.readable then Failure(NoReadMethod(propertyName))
      else if propertyName in e.values then Success(ValueText(dates, e.values[propertyName]))
      else Success("")
  }

  /** How one attribute is written: a blank, the name, and the value in single quotes. */
  function AttributeFormat(name: string, value: string): string {
    " " + name + "='" + value + "'"
  }

  /** The text the attributes `attrs` of `e` add to its start tag, in order; attributes that
      are not explicit add nothing. */
  function AttributesText(dates: DateCodec, e: WElement, attrs: seq<Attribute>): (r: Result<string, Error>)
    ensures r.Failure? ==> r.error.NoReadMethod?
  {
    if attrs == [] then Success("")
    else
      match AttributesText(dates, e, attrs[..|attrs| - 1])
      case Failure(err) => Failure(err)
      case Success(t) =>
        var a := attrs[|attrs| - 1];
        if !a.explicit then Success(t)
        else
          match StringProperty(dates, e, a.name)
          case Failure(err) => Failure(err)
          case Success(v) => Success(t + AttributeFormat(a.name, v))
  }

  /** The number of elements in the first `i` groups of `e`. */
  function Count(e: WElement, i: nat): nat
    requires i <= |e.groups|
  {
    if i == 0 then 0 else Count(e, i - 1) + |e.groups[i - 1].elements|
  }

  /**
   * appendElement: the start tag at `prefix`; then, for text contents, the contents and the
   * end tag on the same line; for an element with nothing nested, `/>`; otherwise `>`, every
   * nested element at `prefix` plus three spaces, and the end tag at `prefix`.
   */
  function Render(lb: string, dates: DateCodec, e: WElement, prefix: string): (r: Result<string, Error>)
    ensures r.Failure? ==> r.error.NoReadMethod?
    decreases e, 2
  {
    match AttributesText(dates, e, e.attributes)
    case Failure(err) => Failure(err)
    case Success(attrs) =>
      var start := prefix + "<" + e.name + attrs;
      if e.contents.Some? then Success(start + (">" + e.contents.value + "</" + e.name + ">" + lb))
      else if Count(e, |e.groups|) == 0 then Success(start + ("/>" + lb))
      else
        match RenderGroups(lb, dates, e, |e.groups|, prefix + Indent())
        case Failure(err) => Failure(err)
        case Success(body) => Success(start + (">" + lb) + body + (prefix + "</" + e.name + ">" + lb))
  }

  /** The nested elements of the first `i` groups of `e`, each rendered at `prefix`. */
  function RenderGroups(lb: string, dates: DateCodec, e: WElement, i: nat, prefix: string): (r: Result<string, Error>)
    requires i <= |e.groups|
    ensures r.Failure? ==> r.error.NoReadMethod?
    decreases e, 1, i
  {
    if i == 0 then Success("")
    else
      match RenderGroups(lb, dates, e, i - 1, prefix)
      case Failure(err) => Failure(err)
      case Success(s) =>
        match RenderGroup(lb, dates, e, i - 1, |e.groups[i - 1].elements|, prefix)
        case Failure(err) => Failure(err)
        case Success(t) => Success(s + t)
  }

  /** The first `j` elements of group `g` of `e`, each rendered at `prefix`. */
  function RenderGroup(lb: string, dates: DateCodec, e: WElement, g: nat, j: nat, prefix: string): (r: Result<string, Error>)
    requires g < |e.groups| && j <= |e.groups[g].elements|
    ensures r.Failure? ==> r.error.NoReadMethod?
    decreases e, 0, j
  {
    if j == 0 then Success("")
    else
      match RenderGroup(lb, dates, e, g, j - 1, prefix)
      case Failure(err) => Failure(err)
      case Success(s) =>
        match Render(lb, dates, e.groups[g].elements[j - 1], prefix)
        case Failure(err) => Failure(err)
        case Success(t) => Success(s + t)
  }

  /** generateXML: the header line, then the root element without indentation. */
  function Generate(lb: string, dates: DateCodec, root: WElement): (r: Result<string, Error>)
    ensures r.Success? ==> |r.value| >= |Header() + lb| && r.value[..|Header() + lb|] == Header() + lb
    ensures r.Failure? <==> Render(lb, dates, root, "").Failure?
  {
    match Render(lb, dates, root, "")
    case Failure(err) => Failure(err)
    case Success(body) => Success(Header() + lb + body)
  }

  // ---------------------------------------------------------------------------------
  // The imperative serializer

  /** The StringBuffer the serializer appends to. */
  class StringBuffer {
    var text: string

    constructor (initial: string)
      ensures text == initial
    {
      text := initial;
    }

    method Append(s: string)
      modifies this
      ensures text == old(text) + s
    {
      text := text + s;
    }
  }

  /** appendElement: appends the element, as `Render` describes it, to `sb`. On a failure the
      buffer holds a partial element, and the error is `Render`'s. */
  method AppendElement(lb: string, dates: DateCodec, sb: StringBuffer, element: WElement, prefix: string)
    returns (error: Option<Error>)
    modifies sb
    ensures error.None? <==> Render(lb, dates, element, prefix).Success?
    ensures error.None? ==> sb.text == old(sb.text) + Render(lb, dates, element, prefix).value
    ensures error.Some? ==> error.value == Render(lb, dates, element, prefix).error
    decreases element, 2
  {
    sb.Append(prefix + "<" + element.name);
    error := AppendAttributes(dates, sb, element);
    if error.Some? {
      return;
    }
    ghost var start := prefix + "<" + element.name + AttributesText(dates, element, element.attributes).value;
    assert sb.text == old(sb.text) + start;
    if element.contents.Some? {
      sb.Append(">" + element.contents.value + "</" + element.name + ">" + lb);
      return None;
    }
    var isEmpty;
    error, isEmpty := AppendNested(lb, dates, sb, element, prefix + Indent());
    if error.Some? {
      return;
    }
    ghost var body := RenderGroups(lb, dates, element, |element.groups|, prefix + Indent()).value;
    if isEmpty {
      sb.Append("/>" + lb);
      assert sb.text == old(sb.text) + (start + ("/>" + lb));
    } else {
      sb.Append(prefix + "</" + element.name + ">" + lb);
      assert sb.text == old(sb.text) + (start + (">" + lb) + body + (prefix + "</" + element.name + ">" + lb));
    }
    return None;
  }

  /** The attribute loop of appendElement: each explicit attribute with its property's text. */
  method AppendAttributes(dates: DateCodec, sb: StringBuffer, element: WElement) returns (error: Option<Error>)
    modifies sb
    ensures error.None? <==> AttributesText(dates, element, element.attributes).Success?
    ensures error.None? ==> sb.text == old(sb.text) + AttributesText(dates, element, element.attributes).value
    ensures error.Some? ==> error.value == AttributesText(dates, element, element.attributes).error
  {
    var i := 0;
    while i < |element.attributes|
      invariant 0 <= i <= |element.attributes|
      invariant AttributesText(dates, element, element.attributes[..i]).Success?
      invariant sb.text == old(sb.text) + AttributesText(dates, element, element.attributes[..i]).value
    {
      var attribute := element.attributes[i];
      ghost var done := AttributesText(dates, element, element.attributes[..i]).value;
      assert element.attributes[..i + 1][..i] == element.attributes[..i];
      if attribute.explicit {
        var value := StringProperty(dates, element, attribute.name);
        if value.Failure? {
          AttributesFailureStays(dates, element, element.attributes, i + 1);
          return Some(value.error);
        }
        ghost var before := sb.text;
        sb.Append(" ");
        sb.Append(attribute.name);
        sb.Append("='");
        sb.Append(value.value);
        sb.Append("'");
        ghost var piece := AttributeFormat(attribute.name, value.value);
        assert sb.text == before + piece by {
          FormatAppended(before, attribute.name, value.value);
        }
        assert AttributesText(dates, element, element.attributes[..i + 1]) == Success(done + piece);
        Associative(old(sb.text), done, piece);
      } else {
        assert AttributesText(dates, element, element.attributes[..i + 1]) == Success(done);
      }
      i := i + 1;
    }
    assert element.attributes[..i] == element.attributes;
    return None;
  }

  /** Appending the pieces of an attribute one by one appends its format. */
  lemma FormatAppended(x: string, name: string, value: string)
    ensures x + " " + name + "='" + value + "'" == x + AttributeFormat(name, value)
  {
    Associative(x, " ", name);
    Associative(x, " " + name, "='");
    Associative(x, " " + name + "='", value);
    Associative(x, " " + name + "='" + value, "'");
  }

  /** The outer loop of appendElement over the groups of nested elements: `>` and a line
      break before the first nested element, then every nested element at `childPrefix`;
      `isEmpty` tells whether there was none. */
  method AppendNested(lb: string, dates: DateCodec, sb: StringBuffer, element: WElement, childPrefix: string)
    returns (error: Option<Error>, isEmpty: bool)
    modifies sb
    ensures error.None? <==> RenderGroups(lb, dates, element, |element.groups|, childPrefix).Success?
    ensures error.None? ==> (isEmpty <==> Count(element, |element.groups|) == 0)
    ensures error.None? && isEmpty ==> RenderGroups(lb, dates, element, |element.groups|, childPrefix).value == ""
    ensures error.None? ==> sb.text == old(sb.text) + (if isEmpty then "" else ">" + lb)
                                       + RenderGroups(lb, dates, element, |element.groups|, childPrefix).value
    ensures error.Some? ==> error.value == RenderGroups(lb, dates, element, |element.groups|, childPrefix).error
    ensures error.Some? ==> Count(element, |element.groups|) > 0
    decreases element, 1
  {
    isEmpty := true;
    var g := 0;
    while g < |element.groups|
      invariant 0 <= g <= |element.groups|
      invariant RenderGroups(lb, dates, element, g, childPrefix).Success?
      invariant isEmpty <==> Count(element, g) == 0
      invariant isEmpty ==> RenderGroups(lb, dates, element, g, childPrefix).value == ""
      invariant sb.text == old(sb.text) + (if isEmpty then "" else ">" + lb)
                           + RenderGroups(lb, dates, element, g, childPrefix).value
    {
      ghost var before := RenderGroups(lb, dates, element, g, childPrefix).value;
      ghost var wasEmpty := isEmpty;
      error, isEmpty := AppendGroup(lb, dates, sb, element, g, childPrefix, isEmpty);
      if error.Some? {
        GroupsFailureStays(lb, dates, element, g + 1, |element.groups|, childPrefix);
        CountMonotone(element, g + 1, |element.groups|);
        return;
      }
      ghost var here := RenderGroup(lb, dates, element, g, |element.groups[g].elements|, childPrefix).value;
      assert RenderGroups(lb, dates, element, g + 1, childPrefix).value == before + here;
      if wasEmpty {
        assert before == "";
        assert sb.text == old(sb.text) + (if isEmpty then "" else ">" + lb) + (before + here);
      } else {
        assert sb.text == old(sb.text) + ">" + lb + before + here;
        assert sb.text == old(sb.text) + (">" + lb) + (before + here);
      }
      g := g + 1;
    }
    return None, isEmpty;
  }

  /** The inner loop of appendElement, over the elements of group `g`. */
  method AppendGroup(lb: string, dates: DateCodec, sb: StringBuffer, element: WElement, g: nat, childPrefix: string, wasEmpty: bool)
    returns (error: Option<Error>, isEmpty: bool)
    requires g < |element.groups|
    modifies sb
    ensures error.None? <==> RenderGroup(lb, dates, element, g, |element.groups[g].elements|, childPrefix).Success?
    ensures error.None? ==> (isEmpty <==> wasEmpty && |element.groups[g].elements| == 0)
    ensures error.None? ==> sb.text == old(sb.text) + (if wasEmpty && !isEmpty then ">" + lb else "")
                                       + RenderGroup(lb, dates, element, g, |element.groups[g].elements|, childPrefix).value
    ensures error.Some? ==> error.value == RenderGroup(lb, dates, element, g, |element.groups[g].elements|, childPrefix).error
    ensures error.Some? ==> |element.groups[g].elements| > 0
    decreases element, 0
  {
    var children := element.groups[g].elements;
    isEmpty := wasEmpty;
    var j := 0;
    while j < |children|
      invariant 0 <= j <= |children|
      invariant RenderGroup(lb, dates, element, g, j, childPrefix).Success?
      invariant isEmpty <==> wasEmpty && j == 0
      invariant sb.text == old(sb.text) + (if wasEmpty && !isEmpty then ">" + lb else "")
                           + RenderGroup(lb, dates, element, g, j, childPrefix).value
    {
      if isEmpty {
        isEmpty := false;
        sb.Append(">" + lb);
      }
      ghost var before := RenderGroup(lb, dates, element, g, j, childPrefix).value;
      error := AppendElement(lb, dates, sb, children[j], childPrefix);
      if error.Some? {
        GroupFailureStays(lb, dates, element, g, j + 1, |children|, childPrefix);
        return;
      }
      assert sb.text == old(sb.text) + (if wasEmpty && !isEmpty then ">" + lb else "")
                        + (before + Render(lb, dates, children[j], childPrefix).value);
      j := j + 1;
    }
    return None, isEmpty;
  }

  /** generateXML. */
  method GenerateXml(lb: string, dates: DateCodec, root: WElement) returns (r: Result<string, Error>)
    ensures r == Generate(lb, dates, root)
  {
    var sb := new StringBuffer(Header());
    sb.Append(lb);
    var error := AppendElement(lb, dates, sb, root, "");
    if error.Some? {
      return Failure(error.value);
    }
    return Success(sb.text);
  }

  // ---------------------------------------------------------------------------------
  // Failures

  /** A failure among the first attributes is the failure of the whole start tag. */
  lemma {:induction false} AttributesFailureStays(dates: DateCodec, e: WElement, attrs: seq<Attribute>, i: nat)
    requires i <= |attrs| && AttributesText(dates, e, attrs[..i]).Failure?
    ensures AttributesText(dates, e, attrs) == AttributesText(dates, e, attrs[..i])
    decreases |attrs|
  {
    if |attrs| > i {
      assert attrs[..|attrs| - 1][..i] == attrs[..i];
      AttributesFailureStays(dates, e, attrs[..|attrs| - 1], i);
    } else {
      assert attrs[..i] == attrs;
    }
  }

  lemma {:induction false} GroupFailureStays(lb: string, dates: DateCodec, e: WElement, g: nat, j: nat, n: nat, prefix: string)
    requires g < |e.groups| && j <= n <= |e.groups[g].elements|
    requires RenderGroup(lb, dates, e, g, j, prefix).Failure?
    ensures RenderGroup(lb, dates, e, g, n, prefix) == RenderGroup(lb, dates, e, g, j, prefix)
    decreases n
  {
    if n > j {
      GroupFailureStays(lb, dates, e, g, j, n - 1, prefix);
    }
  }

  lemma {:induction false} GroupsFailureStays(lb: string, dates: DateCodec, e: WElement, i: nat, n: nat, prefix: string)
    requires i <= n <= |e.groups| && RenderGroups(lb, dates, e, i, prefix).Failure?
    ensures RenderGroups(lb, dates, e, n, prefix) == RenderGroups(lb, dates, e, i, prefix)
    decreases n
  {
    if n > i {
      GroupsFailureStays(lb, dates, e, i, n - 1, prefix);
    }
  }

  lemma {:induction false} CountMonotone(e: WElement, i: nat, n: nat)
    requires i <= n <= |e.groups|
    ensures Count(e, i) <= Count(e, n)
    decreases n
  {
    if n > i {
      CountMonotone(e, i, n - 1);
    }
  }

  // ---------------------------------------------------------------------------------
  // Which attributes are written, and when writing fails

  /** The explicit attributes among `attrs`, in order. */
  function Explicit(attrs: seq<Attribute>): (r: seq<Attribute>)
    ensures |r| <= |attrs|
    ensures forall a :: a in r <==> a in attrs && a.explicit
  {
    if attrs == [] then []
    else
      assert attrs == attrs[..|attrs| - 1] + [attrs[|attrs| - 1]];
      Explicit(attrs[..|attrs| - 1]) + (if attrs[|attrs| - 1].explicit then [attrs[|attrs| - 1]] else [])
  }

  /** Filtering keeps the order: the explicit attributes of a concatenation are those of the
      first part followed by those of the second. */
  lemma {:induction false} ExplicitAppend(first: seq<Attribute>, second: seq<Attribute>)
    ensures Explicit(first + second) == Explicit(first) + Explicit(second)
    decreases |second|
  {
    if second == [] {
      assert first + second == first;
    } else {
      var init := second[..|second| - 1];
      var a := second[|second| - 1];
      var all := first + second;
      var last := if a.explicit then [a] else [];
      assert all[..|all| - 1] == first + init;
      assert all[|all| - 1] == a;
      assert Explicit(all) == Explicit(first + init) + last;
      assert Explicit(second) == Explicit(init) + last;
      ExplicitAppend(first, init);
      assert Explicit(first) + Explicit(init) + last == Explicit(first) + (Explicit(init) + last);
    }
  }

  /** Only the explicit attributes show in the start tag: dropping the others changes nothing. */
  lemma {:induction false} ExplicitOnly(dates: DateCodec, e: WElement, attrs: seq<Attribute>)
    ensures AttributesText(dates, e, Explicit(attrs)) == AttributesText(dates, e, attrs)
    decreases |attrs|
  {
    if attrs != [] {
      var init := attrs[..|attrs| - 1];
      var a := attrs[|attrs| - 1];
      ExplicitOnly(dates, e, init);
      if a.explicit {
        var x := Explicit(init) + [a];
        assert x[..|x| - 1] == Explicit(init);
      } else {
        assert Explicit(attrs) == Explicit(init) + [] == Explicit(init);
      }
    }
  }

  /** The property behind attribute `name` can be written: `e` has no such property, or it
      has a read method. */
  predicate Readable(e: WElement, name: string) {
    FindProperty(e.properties, name).None? || FindProperty(e.properties, name).value.readable
  }

  /** Every element written out, `e` and those nested in it, reads only properties that can
      be read. Nested elements of an element with text contents are never written. */
  predicate Renderable(e: WElement)
    decreases e
  {
    (forall a :: a in e.attributes && a.explicit ==> Readable(e, a.name))
    && (e.contents.None? ==>
          forall g, j :: 0 <= g < |e.groups| && 0 <= j < |e.groups[g].elements| ==> Renderable(e.groups[g].elements[j]))
  }

  lemma {:induction false} AttributesSucceed(dates: DateCodec, e: WElement, attrs: seq<Attribute>)
    ensures AttributesText(dates, e, attrs).Success? <==> forall a :: a in attrs && a.explicit ==> Readable(e, a.name)
    decreases |attrs|
  {
    if attrs != [] {
      var init := attrs[..|attrs| - 1];
      AttributesSucceed(dates, e, init);
      assert attrs == init + [attrs[|attrs| - 1]];
    }
  }

  /** Writing succeeds exactly when no written element names a property it cannot read. */
  lemma {:induction false} RenderSucceeds(lb: string, dates: DateCodec, e: WElement, prefix: string)
    ensures Render(lb, dates, e, prefix).Success? <==> Renderable(e)
    decreases e, 2
  {
    AttributesSucceed(dates, e, e.attributes);
    if e.contents.None? {
      GroupsSucceed(lb, dates, e, |e.groups|, prefix + Indent());
      if Count(e, |e.groups|) == 0 {
        CountZero(e, |e.groups|);
      }
    }
  }

  lemma {:induction false} GroupsSucceed(lb: string, dates: DateCodec, e: WElement, i: nat, prefix: string)
    requires i <= |e.groups|
    ensures RenderGroups(lb, dates, e, i, prefix).Success? <==>
            forall g, j :: 0 <= g < i && 0 <= j < |e.groups[g].elements| ==> Renderable(e.groups[g].elements[j])
    decreases e, 1, i
  {
    if i > 0 {
      GroupsSucceed(lb, dates, e, i - 1, prefix);
      GroupSucceeds(lb, dates, e, i - 1, |e.groups[i - 1].elements|, prefix);
      GroupsSuccessStep(lb, dates, e, i, prefix);
    }
  }

  /** The first `i` groups render when the first `i - 1` do and group `i - 1` does. */
  lemma GroupsSuccessStep(lb: string, dates: DateCodec, e: WElement, i: nat, prefix: string)
    requires 0 < i <= |e.groups|
    ensures RenderGroups(lb, dates, e, i, prefix).Success? <==>
            RenderGroups(lb, dates, e, i - 1, prefix).Success?
            && RenderGroup(lb, dates, e, i - 1, |e.groups[i - 1].elements|, prefix).Success?
  {
  }

  lemma {:induction false} GroupSucceeds(lb: string, dates: DateCodec, e: WElement, g: nat, j: nat, prefix: string)
    requires g < |e.groups| && j <= |e.groups[g].elements|
    ensures RenderGroup(lb, dates, e, g, j, prefix).Success? <==>
            forall k :: 0 <= k < j ==> Renderable(e.groups[g].elements[k])
    decreases e, 0, j
  {
    if j > 0 {
      GroupSucceeds(lb, dates, e, g, j - 1, prefix);
      RenderSucceeds(lb, dates, e.groups[g].elements[j - 1], prefix);
    }
  }

  /** No nested elements in the first `i` groups means every one of them is empty. */
  lemma {:induction false} CountZero(e: WElement, i: nat)
    requires i <= |e.groups|
    ensures Count(e, i) == 0 <==> forall g :: 0 <= g < i ==> |e.groups[g].elements| == 0
    decreases i
  {
    if i > 0 {
      CountZero(e, i - 1);
    }
  }

  // ---------------------------------------------------------------------------------
  // The output as lines

  /** One line of output: a start tag, an end tag, an element closed by `/>`, or an element
      with its text contents; each at an indentation of `indent` blanks. */
  datatype Line =
    | StartTag(indent: nat, name: string, attributes: string)
    | EndTag(indent: nat, name: string)
    | EmptyTag(indent: nat, name: string, attributes: string)
    | TextLine(indent: nat, name: string, attributes: string, contents: string)

  function Spaces(n: nat): (r: string)
    ensures |r| == n && forall k :: 0 <= k < n ==> r[k] == ' '
  {
    if n == 0 then "" else Spaces(n - 1) + " "
  }

  /** The text of one line, ended by the line break `lb`. */
  function LineText(l: Line, lb: string): string {
    match l
    case StartTag(n, name, attrs) => Spaces(n) + "<" + name + attrs + (">" + lb)
    case EndTag(n, name) => Spaces(n) + "</" + name + ">" + lb
    case EmptyTag(n, name, attrs) => Spaces(n) + "<" + name + attrs + ("/>" + lb)
    case TextLine(n, name, attrs, c) => Spaces(n) + "<" + name + attrs + (">" + c + "</" + name + ">" + lb)
  }

  /** The lines, one after the other. */
  function Layout(lines: seq<Line>, lb: string): string {
    if lines == [] then "" else LineText(lines[0], lb) + Layout(lines[1..], lb)
  }

  /** The attribute text of the start tag of `e`, when it can be written. */
  function StartText(dates: DateCodec, e: WElement): string {
    match AttributesText(dates, e, e.attributes)
    case Success(t) => t
    case Failure(_) => ""
  }

  /** The lines that describe `e` at indentation `n`: one line for text contents or for an
      element with nothing nested, otherwise a start tag, the lines of every nested element
      three blanks deeper, and an end tag. */
  function Lines(dates: DateCodec, e: WElement, n: nat): seq<Line>
    decreases e, 2
  {
    if e.contents.Some? then [TextLine(n, e.name, StartText(dates, e), e.contents.value)]
    else if Count(e, |e.groups|) == 0 then [EmptyTag(n, e.name, StartText(dates, e))]
    else [StartTag(n, e.name, StartText(dates, e))] + GroupsLines(dates, e, |e.groups|, n + 3) + [EndTag(n, e.name)]
  }

  function GroupsLines(dates: DateCodec, e: WElement, i: nat, n: nat): seq<Line>
    requires i <= |e.groups|
    decreases e, 1, i
  {
    if i == 0 then [] else GroupsLines(dates, e, i - 1, n) + GroupLines(dates, e, i - 1, |e.groups[i - 1].elements|, n)
  }

  function GroupLines(dates: DateCodec, e: WElement, g: nat, j: nat, n: nat): seq<Line>
    requires g < |e.groups| && j <= |e.groups[g].elements|
    decreases e, 0, j
  {
    if j == 0 then [] else GroupLines(dates, e, g, j - 1, n) + Lines(dates, e.groups[g].elements[j - 1], n)
  }

  lemma {:induction false} LayoutAppend(a: seq<Line>, b: seq<Line>, lb: string)
    ensures Layout(a + b, lb) == Layout(a, lb) + Layout(b, lb)
    decreases |a|
  {
    if a == [] {
      assert a + b == b;
    } else {
      var head := LineText(a[0], lb);
      calc {
        Layout(a + b, lb);
        { assert (a + b)[0] == a[0];
          assert (a + b)[1..] == a[1..] + b; }
        head + Layout(a[1..] + b, lb);
        { LayoutAppend(a[1..], b, lb); }
        head + (Layout(a[1..], lb) + Layout(b, lb));
        { Associative(head, Layout(a[1..], lb), Layout(b, lb)); }
        (head + Layout(a[1..], lb)) + Layout(b, lb);
        Layout(a, lb) + Layout(b, lb);
      }
    }
  }

  lemma Associative(x: string, y: string, z: string)
    ensures x + (y + z) == (x + y) + z
  {
  }

  lemma {:induction false} SpacesIndent(n: nat)
    ensures Spaces(n) + Indent() == Spaces(n + 3)
  {
    assert Spaces(n + 3) == Spaces(n) + " " + " " + " ";
  }

  /** The text `Render` writes for `e` at `n` blanks is the layout of its lines. */
  lemma {:induction false} RenderIsLayout(lb: string, dates: DateCodec, e: WElement, n: nat)
    requires Renderable(e)
    ensures Render(lb, dates, e, Spaces(n)) == Success(Layout(Lines(dates, e, n), lb))
    decreases e, 2
  {
    AttributesSucceed(dates, e, e.attributes);
    if e.contents.Some? {
      TextLineLayout(lb, dates, e, n);
    } else if Count(e, |e.groups|) == 0 {
      EmptyTagLayout(lb, dates, e, n);
    } else {
      SpacesIndent(n);
      GroupsIsLayout(lb, dates, e, |e.groups|, n + 3);
      NestedLayout(lb, dates, e, n);
    }
  }

  lemma TextLineLayout(lb: string, dates: DateCodec, e: WElement, n: nat)
    requires AttributesText(dates, e, e.attributes).Success? && e.contents.Some?
    ensures Render(lb, dates, e, Spaces(n)) == Success(Layout(Lines(dates, e, n), lb))
  {
    var line := TextLine(n, e.name, StartText(dates, e), e.contents.value);
    assert Layout([line], lb) == LineText(line, lb) + "" == LineText(line, lb);
  }

  lemma EmptyTagLayout(lb: string, dates: DateCodec, e: WElement, n: nat)
    requires AttributesText(dates, e, e.attributes).Success? && e.contents.None? && Count(e, |e.groups|) == 0
    ensures Render(lb, dates, e, Spaces(n)) == Success(Layout(Lines(dates, e, n), lb))
  {
    var line := EmptyTag(n, e.name, StartText(dates, e));
    assert Layout([line], lb) == LineText(line, lb) + "" == LineText(line, lb);
  }

  lemma NestedLayout(lb: string, dates: DateCodec, e: WElement, n: nat)
    requires AttributesText(dates, e, e.attributes).Success? && e.contents.None? && Count(e, |e.groups|) > 0
    requires Spaces(n) + Indent() == Spaces(n + 3)
    requires RenderGroups(lb, dates, e, |e.groups|, Spaces(n + 3)) == Success(Layout(GroupsLines(dates, e, |e.groups|, n + 3), lb))
    ensures Render(lb, dates, e, Spaces(n)) == Success(Layout(Lines(dates, e, n), lb))
  {
    LayoutAround(StartTag(n, e.name, StartText(dates, e)), GroupsLines(dates, e, |e.groups|, n + 3), EndTag(n, e.name), lb);
  }

  /** The layout of a body between two lines. */
  lemma LayoutAround(first: Line, body: seq<Line>, last: Line, lb: string)
    ensures Layout([first] + body + [last], lb) == LineText(first, lb) + Layout(body, lb) + LineText(last, lb)
  {
    LayoutAppend([first] + body, [last], lb);
    LayoutAppend([first], body, lb);
    assert Layout([first], lb) == LineText(first, lb) + "" == LineText(first, lb);
    assert Layout([last], lb) == LineText(last, lb) + "" == LineText(last, lb);
  }

  lemma {:induction false} GroupsIsLayout(lb: string, dates: DateCodec, e: WElement, i: nat, n: nat)
    requires i <= |e.groups|
    requires forall g, j :: 0 <= g < i && 0 <= j < |e.groups[g].elements| ==> Renderable(e.groups[g].elements[j])
    ensures RenderGroups(lb, dates, e, i, Spaces(n)) == Success(Layout(GroupsLines(dates, e, i, n), lb))
    decreases e, 1, i
  {
    if i > 0 {
      var before := GroupsLines(dates, e, i - 1, n);
      var group := GroupLines(dates, e, i - 1, |e.groups[i - 1].elements|, n);
      GroupsIsLayout(lb, dates, e, i - 1, n);
      assert RenderGroups(lb, dates, e, i - 1, Spaces(n)) == Success(Layout(before, lb));
      GroupIsLayout(lb, dates, e, i - 1, |e.groups[i - 1].elements|, n);
      assert RenderGroup(lb, dates, e, i - 1, |e.groups[i - 1].elements|, Spaces(n)) == Success(Layout(group, lb));
      LayoutAppend(before, group, lb);
      RenderGroupsStep(lb, dates, e, i, Spaces(n), Layout(before, lb), Layout(group, lb));
    }
  }

  lemma {:induction false} GroupIsLayout(lb: string, dates: DateCodec, e: WElement, g: nat, j: nat, n: nat)
    requires g < |e.groups| && j <= |e.groups[g].elements|
    requires forall k :: 0 <= k < j ==> Renderable(e.groups[g].elements[k])
    ensures RenderGroup(lb, dates, e, g, j, Spaces(n)) == Success(Layout(GroupLines(dates, e, g, j, n), lb))
    decreases e, 0, j
  {
    if j > 0 {
      var child := e.groups[g].elements[j - 1];
      var before := GroupLines(dates, e, g, j - 1, n);
      GroupIsLayout(lb, dates, e, g, j - 1, n);
      assert RenderGroup(lb, dates, e, g, j - 1, Spaces(n)) == Success(Layout(before, lb));
      assert Renderable(child);
      RenderIsLayout(lb, dates, child, n);
      assert Render(lb, dates, child, Spaces(n)) == Success(Layout(Lines(dates, child, n), lb));
      LayoutAppend(before, Lines(dates, child, n), lb);
      RenderGroupStep(lb, dates, e, g, j, Spaces(n), Layout(before, lb), Layout(Lines(dates, child, n), lb));
    }
  }

  /** One more group adds its text. */
  lemma RenderGroupsStep(lb: string, dates: DateCodec, e: WElement, i: nat, prefix: string, s: string, t: string)
    requires 0 < i <= |e.groups|
    requires RenderGroups(lb, dates, e, i - 1, prefix) == Success(s)
    requires RenderGroup(lb, dates, e, i - 1, |e.groups[i - 1].elements|, prefix) == Success(t)
    ensures RenderGroups(lb, dates, e, i, prefix) == Success(s + t)
  {
  }

  /** One more element of a group adds its text. */
  lemma RenderGroupStep(lb: string, dates: DateCodec, e: WElement, g: nat, j: nat, prefix: string, s: string, t: string)
    requires g < |e.groups| && 0 < j <= |e.groups[g].elements|
    requires RenderGroup(lb, dates, e, g, j - 1, prefix) == Success(s)
    requires Render(lb, dates, e.groups[g].elements[j - 1], prefix) == Success(t)
    ensures RenderGroup(lb, dates, e, g, j, prefix) == Success(s + t)
  {
  }

  /** generateXML writes the header line and then the lines of the root, unindented. */
  lemma GenerateIsLayout(lb: string, dates: DateCodec, root: WElement)
    requires Renderable(root)
    ensures Generate(lb, dates, root) == Success(Header() + lb + Layout(Lines(dates, root, 0), lb))
  {
    RenderIsLayout(lb, dates, root, 0);
  }

  // ---------------------------------------------------------------------------------
  // Tags balance and indentation follows nesting

  /** How one line changes the stack `open` of elements left open, when the lines start at
      `base` blanks and go three blanks deeper per open element: None for a line at the wrong
      indentation or an end tag that does not close the innermost open element. */
  function Step(l: Line, open: seq<string>, base: nat): Option<seq<string>> {
    var depth := base + 3 * |open|;
    match l
    case StartTag(n, name, _) => if n == depth then Some(open + [name]) else None
    case EndTag(n, name) =>
      if open != [] && open[|open| - 1] == name && n + 3 == depth then Some(open[..|open| - 1]) else None
    case EmptyTag(n, _, _) => if n == depth then Some(open) else None
    case TextLine(n, _, _, _) => if n == depth then Some(open) else None
  }

  /** The elements left open after reading all of `lines`, or None if some line is wrong. */
  function Nesting(lines: seq<Line>, open: seq<string>, base: nat): Option<seq<string>>
    decreases |lines|
  {
    if lines == [] then Some(open)
    else
      match Step(lines[0], open, base)
      case None => None
      case Some(next) => Nesting(lines[1..], next, base)
  }

  lemma {:induction false} NestingAppend(a: seq<Line>, b: seq<Line>, open: seq<string>, base: nat)
    ensures Nesting(a + b, open, base) ==
            (match Nesting(a, open, base) case None => None case Some(o) => Nesting(b, o, base))
    decreases |a|
  {
    if a == [] {
      assert a + b == b;
    } else {
      assert (a + b)[0] == a[0];
      assert (a + b)[1..] == a[1..] + b;
      match Step(a[0], open, base)
      case None =>
      case Some(next) => NestingAppend(a[1..], b, next, base);
    }
  }

  /** The lines of an element, written where the elements `open` are open, close every tag
      they open, each end tag matching its start tag, and are indented three blanks per
      enclosing element. */
  lemma {:induction false} LinesNest(dates: DateCodec, e: WElement, open: seq<string>, base: nat)
    ensures Nesting(Lines(dates, e, base + 3 * |open|), open, base) == Some(open)
    decreases e, 2
  {
    var n := base + 3 * |open|;
    if e.contents.None? && Count(e, |e.groups|) > 0 {
      var inner := open + [e.name];
      assert base + 3 * |inner| == n + 3;
      GroupsNest(dates, e, |e.groups|, inner, base);
      assert inner[..|inner| - 1] == open;
      NestingAround(StartTag(n, e.name, StartText(dates, e)), GroupsLines(dates, e, |e.groups|, n + 3),
                    EndTag(n, e.name), open, inner, base);
    }
  }

  /** A body that leaves `inner` open, between a line that opens `inner` and one that closes
      it again, leaves `open` open. */
  lemma NestingAround(first: Line, body: seq<Line>, last: Line, open: seq<string>, inner: seq<string>, base: nat)
    requires Step(first, open, base) == Some(inner)
    requires Nesting(body, inner, base) == Some(inner)
    requires Step(last, inner, base) == Some(open)
    ensures Nesting([first] + body + [last], open, base) == Some(open)
  {
    NestingAppend([first] + body, [last], open, base);
    NestingAppend([first], body, open, base);
    assert Nesting([first], open, base) == Some(inner) by {
      assert [first][1..] == [];
    }
    assert Nesting([last], inner, base) == Some(open) by {
      assert [last][1..] == [];
    }
  }

  lemma {:induction false} GroupsNest(dates: DateCodec, e: WElement, i: nat, open: seq<string>, base: nat)
    requires i <= |e.groups|
    ensures Nesting(GroupsLines(dates, e, i, base + 3 * |open|), open, base) == Some(open)
    decreases e, 1, i
  {
    var n := base + 3 * |open|;
    if i > 0 {
      GroupsNest(dates, e, i - 1, open, base);
      GroupNest(dates, e, i - 1, |e.groups[i - 1].elements|, open, base);
      NestingAppend(GroupsLines(dates, e, i - 1, n), GroupLines(dates, e, i - 1, |e.groups[i - 1].elements|, n), open, base);
    }
  }

  lemma {:induction false} GroupNest(dates: DateCodec, e: WElement, g: nat, j: nat, open: seq<string>, base: nat)
    requires g < |e.groups| && j <= |e.groups[g].elements|
    ensures Nesting(GroupLines(dates, e, g, j, base + 3 * |open|), open, base) == Some(open)
    decreases e, 0, j
  {
    var n := base + 3 * |open|;
    if j > 0 {
      GroupNest(dates, e, g, j - 1, open, base);
      LinesNest(dates, e.groups[g].elements[j - 1], open, base);
      NestingAppend(GroupLines(dates, e, g, j - 1, n), Lines(dates, e.groups[g].elements[j - 1], n), open, base);
    }
  }

  /** The document body generateXML writes is balanced: read from no open element at no
      indentation, every start tag is closed by a matching end tag. */
  lemma DocumentBalanced(dates: DateCodec, root: WElement)
    ensures Nesting(Lines(dates, root, 0), [], 0) == Some([])
  {
    LinesNest(dates, root, [], 0);
  }

  /** An element without text contents closes itself with `/>` exactly when nothing is
      nested in it; text contents keep the element on one line whatever is nested in it. */
  lemma SelfClosing(dates: DateCodec, e: WElement, n: nat)
    ensures e.contents.None? ==>
              (Lines(dates, e, n) == [EmptyTag(n, e.name, StartText(dates, e))] <==> Count(e, |e.groups|) == 0)
    ensures e.contents.Some? ==> |Lines(dates, e, n)| == 1 && Lines(dates, e, n)[0].TextLine?
  {
    if e.contents.None? && Count(e, |e.groups|) > 0 {
      assert Lines(dates, e, n)[0].StartTag?;
    }
  }

  // ---------------------------------------------------------------------------------
  // Examples

  /** An explicit attribute whose property the element does not have is written empty, and
      an attribute that is not explicit is not written at all. */
  lemma MissingPropertyExample(lb: string, dates: DateCodec)
    ensures Render(lb, dates, WElement("item", [Attribute("color", true), Attribute("size", false)], [], map[], None, []), "")
            == Success("<item color=''/>" + lb)
  {
    var e := WElement("item", [Attribute("color", true), Attribute("size", false)], [], map[], None, []);
    var color := [Attribute("color", true)];
    assert color[..0] == [];
    assert StringProperty(dates, e, "color") == Success("");
    assert "" + AttributeFormat("color", "") == " color=''";
    assert AttributesText(dates, e, color) == Success(" color=''");
    assert e.attributes[..|e.attributes| - 1] == color;
    assert AttributesText(dates, e, e.attributes) == Success(" color=''");
    assert "" + "<" + "item" + " color=''" + ("/>" + lb) == "<item color=''/>" + lb;
  }

  /** `<entry>x</entry>` */
  function EntryExample(): WElement {
    WElement("entry", [], [], map[], Some("x"), [])
  }

  /** `<list>` holding one entry. */
  function ListExample(): WElement {
    WElement("list", [], [], map[], None, [Nested("entry", [EntryExample()])])
  }

  lemma EntryLine(lb: string, dates: DateCodec)
    ensures Render(lb, dates, EntryExample(), Indent()) == Success("   <entry>x</entry>" + lb)
  {
    var leaf := EntryExample();
    assert AttributesText(dates, leaf, []) == Success("");
    assert Indent() + "<" + "entry" + "" + (">" + "x" + "</" + "entry" + ">" + lb) == "   <entry>x</entry>" + lb;
  }

  lemma ListBody(lb: string, dates: DateCodec)
    ensures RenderGroups(lb, dates, ListExample(), 1, Indent()) == Success("   <entry>x</entry>" + lb)
  {
    var root, line := ListExample(), "   <entry>x</entry>" + lb;
    EntryLine(lb, dates);
    assert RenderGroup(lb, dates, root, 0, 0, Indent()) == Success("");
    RenderGroupStep(lb, dates, root, 0, 1, Indent(), "", line);
    assert "" + line == line;
    assert RenderGroups(lb, dates, root, 0, Indent()) == Success("");
  }

  /** A nested element goes on its own line, three blanks deeper, between the start and the
      end tag of its parent. */
  lemma NestedExample(lb: string, dates: DateCodec)
    ensures Generate(lb, dates, ListExample())
            == Success(Header() + lb + "<list>" + lb + "   <entry>x</entry>" + lb + "</list>" + lb)
  {
    var root, line := ListExample(), "   <entry>x</entry>" + lb;
    ListBody(lb, dates);
    assert Count(root, 1) == 1;
    assert AttributesText(dates, root, []) == Success("");
    assert "" + Indent() == Indent();
    var body := "" + "<" + "list" + "" + (">" + lb) + line + ("" + "</" + "list" + ">" + lb);
    assert Render(lb, dates, root, "") == Success(body);
    assert Header() + lb + body == Header() + lb + "<list>" + lb + "   <entry>x</entry>" + lb + "</list>" + lb;
  }

  /** A property without a read method makes writing fail, naming the property. */
  lemma UnreadableExample(lb: string, dates: DateCodec)
    ensures Generate(lb, dates, WElement("item", [Attribute("secret", true)], [Descriptor("secret", StringKind, true, false)], map[], None, []))
            == Failure(NoReadMethod("secret"))
  {
    var e := WElement("item", [Attribute("secret", true)], [Descriptor("secret", StringKind, true, false)], map[], None, []);
    assert FindProperty(e.properties, "secret") == Some(e.properties[0]);
    assert StringProperty(dates, e, "secret") == Failure(NoReadMethod("secret"));
    assert e.attributes[..0] == [];
    assert AttributesText(dates, e, e.attributes) == Failure(NoReadMethod("secret"));
  }
}
