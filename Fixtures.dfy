/**
 * The two classes of the test fixture, `TestObject` and `TestColor`, as a schema, and the
 * documents of the tests bound into a new `TestObject`.
 */
module Fixtures {
  import opened Wrappers
  import opened Names
  import opened Dom
  import opened Properties
  import opened Binder

  /** TestObject has four write-only properties and the create method `createColor`;
      TestColor has the write-only property `name`. */
  function TestSchema(): (s: Schema)
    ensures Closed(s)
  {
    map[
      "TestObject" := ClassInfo(
        [ Descriptor("quantity1", StringKind, true, false),
          Descriptor("quantity2", IntKind, true, false),
          Descriptor("valueRecorded", BoolKind, true, false),
          Descriptor("when", DateKind, true, false) ],
        map["createColor" := "TestColor"]),
      "TestColor" := ClassInfo([Descriptor("name", StringKind, true, false)], map[])
    ]
  }

  /** The element `<testdoc>` with these children. */
  function TestDoc(attributes: seq<Attr>, children: seq<Node>): seq<Node> {
    [Element("testdoc", attributes, children)]
  }

  /** The date text of the first test document. */
  function WhenText(): string { "May 17, 2012" }

  /** The blank text before each element of the test documents, and after the last. */
  function Blanks(): Node { Text("       ") }
  function TrailingBlanks(): Node { Text("     ") }

  function TestObjectInfo(): ClassInfo { TestSchema()["TestObject"] }

  /** The attributes of the first test document, one per converted type. */
  function AttributeDoc(): seq<Attr> {
    [Attr("quantity1", "value1"), Attr("quantity2", "2"), Attr("when", WhenText())]
  }

  /** TestObject after the first k attributes of the first test document. */
  function AfterAttributes(k: nat, when: Date): ObjValue {
    var o1 := ObjValue("TestObject", map["quantity1" := StrValue("value1")], []);
    var o2 := o1.(values := o1.values["quantity2" := IntValue(2)]);
    var o3 := o2.(values := o2.values["when" := DateValue(when)]);
    if k == 0 then NewObject("TestObject") else if k == 1 then o1 else if k == 2 then o2 else o3
  }

  // Each property of the fixture is found under its own name, which is already normalised.

  lemma Quantity1Property()
    ensures PropertyName("quantity1") == Some("quantity1")
    ensures FindProperty(TestObjectInfo().properties, "quantity1") == Some(Descriptor("quantity1", StringKind, true, false))
  {
    PropertyNameOfPlainName("quantity1");
  }

  lemma Quantity2Property()
    ensures PropertyName("quantity2") == Some("quantity2")
    ensures FindProperty(TestObjectInfo().properties, "quantity2") == Some(Descriptor("quantity2", IntKind, true, false))
  {
    PropertyNameOfPlainName("quantity2");
  }

  lemma WhenProperty()
    ensures PropertyName("when") == Some("when")
    ensures FindProperty(TestObjectInfo().properties, "when") == Some(Descriptor("when", DateKind, true, false))
  {
    PropertyNameOfPlainName("when");
  }

  lemma ValueRecordedProperty()
    ensures PropertyName("valueRecorded") == Some("valueRecorded")
    ensures FindProperty(TestObjectInfo().properties, "valueRecorded") == Some(Descriptor("valueRecorded", BoolKind, true, false))
  {
    PropertyNameOfPlainName("valueRecorded");
  }

  lemma AttributeStep0(dates: DateCodec, when: Date)
    ensures ApplyAttributes(TestObjectInfo(), dates, AttributeDoc(), 0, AfterAttributes(0, when))
            == ApplyAttributes(TestObjectInfo(), dates, AttributeDoc(), 1, AfterAttributes(1, when))
  {
    var info, o0, o1 := TestObjectInfo(), AfterAttributes(0, when), AfterAttributes(1, when);
    var d := Descriptor("quantity1", StringKind, true, false);
    Quantity1Property();
    AssignStores(info, dates, o0, "quantity1", "value1", d, StrValue("value1"));
    ApplyAttributesStep(info, dates, AttributeDoc(), 0, o0, o1);
  }

  lemma AttributeStep1(dates: DateCodec, when: Date)
    ensures ApplyAttributes(TestObjectInfo(), dates, AttributeDoc(), 1, AfterAttributes(1, when))
            == ApplyAttributes(TestObjectInfo(), dates, AttributeDoc(), 2, AfterAttributes(2, when))
  {
    var info, o1, o2 := TestObjectInfo(), AfterAttributes(1, when), AfterAttributes(2, when);
    var d := Descriptor("quantity2", IntKind, true, false);
    Quantity2Property();
    assert ParseInt("2") == Some(2) by { ParseIntExample(); }
    AssignStores(info, dates, o1, "quantity2", "2", d, IntValue(2));
    ApplyAttributesStep(info, dates, AttributeDoc(), 1, o1, o2);
  }

  lemma AttributeStep2(dates: DateCodec, when: Date)
    requires dates.parse(WhenText()) == Some(when)
    ensures ApplyAttributes(TestObjectInfo(), dates, AttributeDoc(), 2, AfterAttributes(2, when))
            == Bound(AfterAttributes(3, when), None)
  {
    var info, o2, o3 := TestObjectInfo(), AfterAttributes(2, when), AfterAttributes(3, when);
    var d := Descriptor("when", DateKind, true, false);
    WhenProperty();
    AssignStores(info, dates, o2, "when", WhenText(), d, DateValue(when));
    ApplyAttributesStep(info, dates, AttributeDoc(), 2, o2, o3);
  }

  /** populateFromAttributes: a string, an int and a date attribute each set their property. */
  lemma PopulateFromAttributes(dates: DateCodec, when: Date)
    requires dates.parse(WhenText()) == Some(when)
    ensures BindDocument(TestSchema(), dates, TestDoc(AttributeDoc(), []), NewObject("TestObject"))
            == Bound(ObjValue("TestObject",
                       map["quantity1" := StrValue("value1"), "quantity2" := IntValue(2), "when" := DateValue(when)],
                       []), None)
  {
    AttributeStep0(dates, when);
    AttributeStep1(dates, when);
    AttributeStep2(dates, when);
    var node := Element("testdoc", AttributeDoc(), []);
    assert RootNode([node]) == Some(node);
    assert BindElement(TestSchema(), dates, node, NewObject("TestObject")) == Bound(AfterAttributes(3, when), None);
  }

  // ---------------------------------------------------------------------------------
  // Nested elements

  /** The class `cls` has no property `text`, so the text children of its elements set
      nothing. */
  predicate NoTextProperty(schema: Schema, cls: string) {
    cls in schema && FindProperty(schema[cls].properties, "text") == None
  }

  /** TestObject has no property `text`: the blank text between the elements of the test
      documents sets nothing. */
  lemma TestObjectHasNoText()
    ensures NoTextProperty(TestSchema(), "TestObject")
  {
    var ps := TestObjectInfo().properties;
    assert forall i :: 0 <= i < |ps| ==> ps[i].name[0] != 't';
    assert "text"[0] == 't';
  }

  lemma TextIgnored(schema: Schema, dates: DateCodec, obj: ObjValue, node: Node, child: Node)
    requires Closed(schema) && NoTextProperty(schema, obj.cls)
    requires node.Element? && child.Text? && child in node.children
    ensures BindChild(schema, dates, node, child, obj) == Bound(obj, None)
  {
    assert PropertyName("text") == Some("text") by { PropertyNameOfPlainName("text"); }
  }

  /** `<color name='c'/>` */
  function ColorElement(c: string): Node {
    Element("color", [Attr("name", c)], [])
  }

  /** A TestColor whose name is `c`. */
  function Color(c: string): ObjValue {
    ObjValue("TestColor", map["name" := StrValue(c)], [])
  }

  /** The element `<color>` is bound into a new TestColor made by `createColor`. */
  lemma ColorBinds(dates: DateCodec, obj: ObjValue, c: string)
    requires obj.cls == "TestObject"
    ensures BindNested(TestSchema(), dates, ColorElement(c), obj) == Bound(obj.(created := obj.created + [Color(c)]), None)
  {
    var schema, e := TestSchema(), ColorElement(c);
    CreateColorExample();
    var info := schema["TestColor"];
    var d := Descriptor("name", StringKind, true, false);
    assert FindProperty(info.properties, "name") == Some(d);
    assert PropertyName("name") == Some("name") by { PropertyNameOfPlainName("name"); }
    AssignStores(info, dates, NewObject("TestColor"), "name", c, d, StrValue(c));
    assert ApplyAttributes(info, dates, e.attributes, 0, NewObject("TestColor")) == Bound(Color(c), None);
    assert BindElement(schema, dates, e, NewObject("TestColor")) == Bound(Color(c), None);
  }

  /** A document whose root element has no attributes binds as that element's children. */
  lemma DocumentIsChildren(schema: Schema, dates: DateCodec, node: Node, root: ObjValue)
    requires Closed(schema) && root.cls in schema && node.Element? && node.attributes == []
    ensures BindDocument(schema, dates, [node], root) == BindChildren(schema, dates, node, 0, root)
  {
    assert RootNode([node]) == Some(node);
  }

  /** Blank text at position `i` followed by an element that takes `obj` to `next`. */
  lemma BlankThenElement(schema: Schema, dates: DateCodec, node: Node, i: nat, obj: ObjValue, next: ObjValue)
    requires Closed(schema) && NoTextProperty(schema, obj.cls)
    requires node.Element? && i + 1 < |node.children| && node.children[i].Text? && node.children[i + 1].Element?
    requires BindNested(schema, dates, node.children[i + 1], obj) == Bound(next, None)
    ensures BindChildren(schema, dates, node, i, obj) == BindChildren(schema, dates, node, i + 2, next)
  {
    TextIgnored(schema, dates, obj, node, node.children[i]);
    BindChildrenStep(schema, dates, node, i, obj, obj);
    BindChildrenStep(schema, dates, node, i + 1, obj, next);
  }

  /** Blank text as the last child ends the child loop without an error. */
  lemma BlankAtEnd(schema: Schema, dates: DateCodec, node: Node, obj: ObjValue)
    requires Closed(schema) && NoTextProperty(schema, obj.cls)
    requires node.Element? && |node.children| > 0 && node.children[|node.children| - 1].Text?
    ensures BindChildren(schema, dates, node, |node.children| - 1, obj) == Bound(obj, None)
  {
    TextIgnored(schema, dates, obj, node, node.children[|node.children| - 1]);
    BindChildrenStep(schema, dates, node, |node.children| - 1, obj, obj);
  }

  /** The last three children are blank text, an element that takes `obj` to `next`, and
      blank text: the child loop ends with `next`. */
  lemma LastElement(schema: Schema, dates: DateCodec, node: Node, obj: ObjValue, next: ObjValue)
    requires Closed(schema) && NoTextProperty(schema, obj.cls)
    requires node.Element? && |node.children| >= 3
    requires node.children[|node.children| - 3].Text? && node.children[|node.children| - 2].Element?
    requires node.children[|node.children| - 1].Text?
    requires BindNested(schema, dates, node.children[|node.children| - 2], obj) == Bound(next, None)
    ensures BindChildren(schema, dates, node, |node.children| - 3, obj) == Bound(next, None)
  {
    BlankThenElement(schema, dates, node, |node.children| - 3, obj, next);
    BlankAtEnd(schema, dates, node, next);
  }

  /** The root element of a document with two elements between blanks. */
  function PairElement(first: Node, second: Node): Node {
    Element("testdoc", [], [Blanks(), first, Blanks(), second, TrailingBlanks()])
  }

  /** Binding `<testdoc>` around two elements, the first of which takes the root object to
      `mid` and the second `mid` to `next`: the blank text around them sets nothing. */
  lemma BindPair(schema: Schema, dates: DateCodec, first: Node, second: Node, root: ObjValue, mid: ObjValue, next: ObjValue)
    requires Closed(schema) && NoTextProperty(schema, root.cls) && first.Element? && second.Element?
    requires BindNested(schema, dates, first, root) == Bound(mid, None)
    requires BindNested(schema, dates, second, mid) == Bound(next, None)
    ensures BindDocument(schema, dates, [PairElement(first, second)], root) == Bound(next, None)
  {
    var node := PairElement(first, second);
    BlankThenElement(schema, dates, node, 0, root, mid);
    LastElement(schema, dates, node, mid, next);
    DocumentIsChildren(schema, dates, node, root);
  }

  /** populateNestedObject: two `<color>` elements give two colors, red then green. */
  lemma PopulateNestedObject(dates: DateCodec)
    ensures BindDocument(TestSchema(), dates, [PairElement(ColorElement("red"), ColorElement("green"))],
                         NewObject("TestObject"))
            == Bound(ObjValue("TestObject", map[], [Color("red"), Color("green")]), None)
  {
    var o1 := NewObject("TestObject").(created := [Color("red")]);
    ColorBinds(dates, NewObject("TestObject"), "red");
    assert NewObject("TestObject").created + [Color("red")] == [Color("red")];
    ColorBinds(dates, o1, "green");
    TestObjectHasNoText();
    BindPair(TestSchema(), dates, ColorElement("red"), ColorElement("green"), NewObject("TestObject"), o1, o1.(created := o1.created + [Color("green")]));
  }

  // ---------------------------------------------------------------------------------
  // Properties set from the text of an element

  /** A name whose normalised form does not start with `c` or `C` has a create method other
      than `createColor`. */
  lemma NotCreateColor(name: string)
    requires |name| > 0 && PropertyName(name).Some?
    requires Upper(PropertyName(name).value[0]) != 'C'
    ensures CreateMethodName(name).Some? && CreateMethodName(name).value != "createColor"
  {
    PropertyNameLength(name);
    var p := PropertyName(name).value;
    assert ("create" + [Upper(p[0])] + p[1..])[6] == Upper(p[0]);
    assert "createColor"[6] == 'C';
  }

  /** `<quantity1>` sets the string property `quantity1` to the element's text. */
  lemma Quantity1Element(dates: DateCodec, obj: ObjValue, kids: seq<Node>)
    requires obj.cls == "TestObject"
    ensures BindNested(TestSchema(), dates, Element("quantity1", [], kids), obj)
            == Bound(obj.(values := obj.values["quantity1" := StrValue(Contents(kids))]), None)
  {
    Quantity1Property();
    NotCreateColor("quantity1");
    var d := Descriptor("quantity1", StringKind, true, false);
    NestedStores(TestSchema(), dates, Element("quantity1", [], kids), obj, d, StrValue(Contents(kids)));
  }

  /** An element whose name normalises to `valueRecorded` and whose text is `true` sets the
      boolean property `valueRecorded` to true. */
  lemma ValueRecordedElement(dates: DateCodec, obj: ObjValue, name: string)
    requires obj.cls == "TestObject" && |name| > 0 && PropertyName(name) == Some("valueRecorded")
    ensures BindNested(TestSchema(), dates, Element(name, [], [Text("true")]), obj)
            == Bound(obj.(values := obj.values["valueRecorded" := BoolValue(true)]), None)
  {
    NotCreateColor(name);
    var d := Descriptor("valueRecorded", BoolKind, true, false);
    ValueRecordedProperty();
    ContentsOfPlainText("true");
    assert ParseBool("true") by { ParseBoolExamples(); }
    NestedStores(TestSchema(), dates, Element(name, [], [Text("true")]), obj, d, BoolValue(true));
  }

  lemma ValueRecordedPlain(dates: DateCodec, obj: ObjValue)
    requires obj.cls == "TestObject"
    ensures BindNested(TestSchema(), dates, Element("valueRecorded", [], [Text("true")]), obj)
            == Bound(obj.(values := obj.values["valueRecorded" := BoolValue(true)]), None)
  {
    ValueRecordedProperty();
    ValueRecordedElement(dates, obj, "valueRecorded");
  }

  /** populateFromNestedElements: elements without a create method set the properties of
      their names from their text. */
  lemma PopulateFromNestedElements(dates: DateCodec)
    ensures BindDocument(TestSchema(), dates,
                         [PairElement(Element("quantity1", [], [Text("aValue")]), Element("valueRecorded", [], [Text("true")]))],
                         NewObject("TestObject"))
            == Bound(ObjValue("TestObject", map["quantity1" := StrValue("aValue"), "valueRecorded" := BoolValue(true)], []), None)
  {
    var o1 := ObjValue("TestObject", map["quantity1" := StrValue("aValue")], []);
    Quantity1Element(dates, NewObject("TestObject"), [Text("aValue")]);
    ContentsOfPlainText("aValue");
    ValueRecordedPlain(dates, o1);
    TestObjectHasNoText();
    BindPair(TestSchema(), dates, Element("quantity1", [], [Text("aValue")]), Element("valueRecorded", [], [Text("true")]),
             NewObject("TestObject"), o1, o1.(values := o1.values["valueRecorded" := BoolValue(true)]));
  }

  /** The root element of a document with a single property element between blanks. */
  function SingleElement(child: Node): Node {
    Element("testdoc", [], [Blanks(), child, TrailingBlanks()])
  }

  /** Binding `<testdoc>` around one element that takes the root object to `next`. */
  lemma BindSingle(schema: Schema, dates: DateCodec, child: Node, root: ObjValue, next: ObjValue)
    requires Closed(schema) && NoTextProperty(schema, root.cls) && child.Element?
    requires BindNested(schema, dates, child, root) == Bound(next, None)
    ensures BindDocument(schema, dates, [SingleElement(child)], root) == Bound(next, None)
  {
    var node := SingleElement(child);
    LastElement(schema, dates, node, root, next);
    DocumentIsChildren(schema, dates, node, root);
  }

  /** recognizeHyphenatedName: `<value-recorded>` sets `valueRecorded`. */
  lemma RecognizeHyphenatedName(dates: DateCodec)
    ensures BindDocument(TestSchema(), dates, [SingleElement(Element("value-recorded", [], [Text("true")]))],
                         NewObject("TestObject"))
            == Bound(ObjValue("TestObject", map["valueRecorded" := BoolValue(true)], []), None)
  {
    HyphenatedExample();
    ValueRecordedElement(dates, NewObject("TestObject"), "value-recorded");
    TestObjectHasNoText();
    BindSingle(TestSchema(), dates, Element("value-recorded", [], [Text("true")]), NewObject("TestObject"),
               ObjValue("TestObject", map["valueRecorded" := BoolValue(true)], []));
  }

  /** populateFromCData: a CDATA section keeps its leading blank. */
  lemma PopulateFromCData(dates: DateCodec)
    ensures BindDocument(TestSchema(), dates, [SingleElement(Element("quantity1", [], [CData(" a phrase")]))],
                         NewObject("TestObject"))
            == Bound(ObjValue("TestObject", map["quantity1" := StrValue(" a phrase")], []), None)
  {
    Quantity1Element(dates, NewObject("TestObject"), [CData(" a phrase")]);
    ContentsExamples();
    TestObjectHasNoText();
    BindSingle(TestSchema(), dates, Element("quantity1", [], [CData(" a phrase")]), NewObject("TestObject"),
               ObjValue("TestObject", map["quantity1" := StrValue(" a phrase")], []));
  }
}
