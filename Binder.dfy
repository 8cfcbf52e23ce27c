/**
 * The binder: walks an element of the document and fills in a target object from it.
 * Attributes set properties of the same (normalised) name; a child element either makes a
 * nested object through the target's `create<Name>()` method and is bound into it, or, when
 * there is no such method, sets the property of the child's name to the child's text; text
 * and CDATA children set the property `text` to the element's text.
 *
 * Java reflection is replaced by a schema that lists, for every class, its bean properties
 * and its create methods. The target objects are instances of the class `Target`, which the
 * binder updates in place; their ghost `model` is the value the specification functions of
 * this module compute.
 */
module Binder {
  import opened Wrappers
  import opened Names
  import opened Dom
  import opened Properties

  /** What introspection and reflection find on a class: its bean properties in the order
      introspection lists them, and its zero-argument create methods with the class of the
      object each returns. */
  datatype ClassInfo = ClassInfo(properties: seq<Descriptor>, creators: map<string, string>)

  /** The classes of the object graph, by name. */
  type Schema = map<string, ClassInfo>

  /** Every create method returns an object of a class the schema describes. */
  predicate Closed(schema: Schema) {
    forall cls, m :: cls in schema && m in schema[cls].creators ==> schema[cls].creators[m] in schema
  }

  /** The state of a target object: its class, the values its write methods have stored,
      and the objects its create methods have made, in the order they were made. */
  datatype ObjValue = ObjValue(cls: string, values: map<string, Value>, created: seq<ObjValue>)

  /** A newly constructed object of class `cls`. */
  function NewObject(cls: string): ObjValue {
    ObjValue(cls, map[], [])
  }

  /** The state after binding, with the first fatal error if there was one. There is no
      rollback: on an error the object keeps everything applied before it. */
  datatype Bound = Bound(obj: ObjValue, error: Option<Error>)

  // ---------------------------------------------------------------------------------
  // The specification: what binding does to the state of the target

  /**
   * setProperty: the name is normalised; a property that the class does not have, or has
   * no write method for, is skipped silently; otherwise the text is converted to the
   * property's type and stored, or the conversion's error ends the binding.
   */
  function Assign(info: ClassInfo, dates: DateCodec, obj: ObjValue, propertyName: string, text: string): (r: Bound)
    ensures r.obj.cls == obj.cls && r.obj.created == obj.created
    ensures r.error != Some(NoRootNode)
  {
    match PropertyName(propertyName)
    case None => Bound(obj, Some(MalformedName(propertyName)))
    case Some(name) =>
      match FindProperty(info.properties, name)
      case None => Bound(obj, None)
      case Some(d) =>
        if !d.writable then Bound(obj, None)
        else
          match Coerce(dates, d.kind, text)
          case Failure(e) => Bound(obj, Some(e))
          case Success(v) => Bound(obj.(values := obj.values[name := v]), None)
  }

  /** setContentsAsProperty: the property is set to the text of the element `propertyNode`. */
  function AssignContents(info: ClassInfo, dates: DateCodec, obj: ObjValue, propertyNode: Node, propertyName: string): (r: Bound)
    requires propertyNode.Element?
    ensures r.obj.cls == obj.cls && r.obj.created == obj.created
    ensures r.error != Some(NoRootNode)
  {
    Assign(info, dates, obj, propertyName, Contents(propertyNode.children))
  }

  /** The attribute loop of interpretNode, from attribute `i` on: each attribute name is
      normalised and the attribute's value set as that property. */
  function ApplyAttributes(info: ClassInfo, dates: DateCodec, attributes: seq<Attr>, i: nat, obj: ObjValue): (r: Bound)
    requires i <= |attributes|
    ensures r.obj.cls == obj.cls && r.obj.created == obj.created
    ensures r.error != Some(NoRootNode)
    decreases |attributes| - i
  {
    if i == |attributes| then Bound(obj, None)
    else
      match PropertyName(attributes[i].name)
      case None => Bound(obj, Some(MalformedName(attributes[i].name)))
      case Some(name) =>
        var b := Assign(info, dates, obj, name, attributes[i].value);
        if b.error.Some? then b else ApplyAttributes(info, dates, attributes, i + 1, b.obj)
  }

  /** interpretNode: the attributes of the element, then its children in document order. */
  function BindElement(schema: Schema, dates: DateCodec, node: Node, obj: ObjValue): (r: Bound)
    requires node.Element? && Closed(schema) && obj.cls in schema
    ensures r.obj.cls == obj.cls && obj.created <= r.obj.created
    ensures r.error != Some(NoRootNode)
    decreases node, 2
  {
    var b := ApplyAttributes(schema[obj.cls], dates, node.attributes, 0, obj);
    if b.error.Some? then b else BindChildren(schema, dates, node, 0, b.obj)
  }

  /** The child loop of interpretNode, from child `i` on; it stops at the first error. */
  function BindChildren(schema: Schema, dates: DateCodec, node: Node, i: nat, obj: ObjValue): (r: Bound)
    requires node.Element? && i <= |node.children| && Closed(schema) && obj.cls in schema
    ensures r.obj.cls == obj.cls && obj.created <= r.obj.created
    ensures r.error != Some(NoRootNode)
    decreases node, 1, |node.children| - i
  {
    if i == |node.children| then Bound(obj, None)
    else
      var b := BindChild(schema, dates, node, node.children[i], obj);
      if b.error.Some? then b else BindChildren(schema, dates, node, i + 1, b.obj)
  }

  /** One pass of the child loop of interpretNode: an element is bound as a nested element;
      a text or CDATA child sets `text` to the text of the whole parent; anything else is
      passed over. */
  function BindChild(schema: Schema, dates: DateCodec, parent: Node, child: Node, obj: ObjValue): (r: Bound)
    requires parent.Element? && child in parent.children && Closed(schema) && obj.cls in schema
    ensures r.obj.cls == obj.cls && obj.created <= r.obj.created
    ensures r.error != Some(NoRootNode)
    decreases parent, 0
  {
    match child
    case Element(_, _, _) => BindNested(schema, dates, child, obj)
    case Text(_) => AssignContents(schema[obj.cls], dates, obj, parent, "text")
    case CData(_) => AssignContents(schema[obj.cls], dates, obj, parent, "text")
    case Other => Bound(obj, None)
  }

  /**
   * interpretNestedElement: when the target has a create method for the element's name,
   * the object it makes is appended to the target's created objects and the element is
   * bound into it; otherwise the element's text is set as the property of the element's
   * name.
   */
  function BindNested(schema: Schema, dates: DateCodec, child: Node, obj: ObjValue): (r: Bound)
    requires child.Element? && Closed(schema) && obj.cls in schema
    ensures r.obj.cls == obj.cls && obj.created <= r.obj.created
    ensures r.error != Some(NoRootNode)
    decreases child, 3
  {
    match CreateMethodName(child.name)
    case None => Bound(obj, Some(MalformedName(child.name)))
    case Some(m) =>
      if m in schema[obj.cls].creators then
        var sub := BindElement(schema, dates, child, NewObject(schema[obj.cls].creators[m]));
        Bound(obj.(created := obj.created + [sub.obj]), sub.error)
      else
        AssignContents(schema[obj.cls], dates, obj, child, child.name)
  }

  /** build: the document's root element is bound into the root object; a document without
      an element fails. */
  function BindDocument(schema: Schema, dates: DateCodec, document: seq<Node>, root: ObjValue): (r: Bound)
    requires Closed(schema) && root.cls in schema
    ensures r.obj.cls == root.cls && root.created <= r.obj.created
    ensures r.error == Some(NoRootNode) <==> forall i :: 0 <= i < |document| ==> !document[i].Element?
  {
    match RootNode(document)
    case None => Bound(root, Some(NoRootNode))
    case Some(node) => BindElement(schema, dates, node, root)
  }

  // ---------------------------------------------------------------------------------
  // The target objects and the binder's methods

  /** An object being populated: a write method per property and the create methods,
      which append the new object to `created`. */
  class Target {
    const cls: string
    var values: map<string, Value>
    var created: seq<Target>
    ghost var model: ObjValue
    ghost var Repr: set<object>

    /** The object and the objects it created form a tree, and `model` is its state. */
    ghost predicate Valid()
      reads this, Repr
      decreases Repr, 1
    {
      && Mirrored()
      && (forall i :: 0 <= i < |created| ==> created[i] in Repr && created[i].Repr <= Repr && ChildValid(i))
      && (forall i, j :: 0 <= i < j < |created| ==> created[i].Repr !! created[j].Repr)
    }

    /** The object's own fields are those of `model`, and it has one model per created
        object. */
    ghost predicate Mirrored()
      reads this
    {
      this in Repr && model.cls == cls && model.values == values && |model.created| == |created|
    }

    /** The created object `i` is a valid subtree of this one, and its model is the one this
        object's model holds for it. */
    ghost predicate ChildValid(i: nat)
      requires i < |created|
      reads this, created[i], created[i].Repr
      decreases Repr, 0
    {
      && Mirrored()
      && created[i] in Repr && created[i].Repr <= Repr && this !in created[i].Repr
      && created[i].model == model.created[i] && created[i].Valid()
    }

    constructor (cls: string)
      ensures Valid() && fresh(Repr) && this.cls == cls
      ensures model == NewObject(cls)
    {
      this.cls := cls;
      values := map[];
      created := [];
      model := NewObject(cls);
      Repr := {this};
    }

    /** The write method of property `name`. */
    method Set(name: string, v: Value)
      requires Valid()
      modifies this
      ensures Valid() && Repr == old(Repr) && created == old(created)
      ensures model == old(model).(values := old(model.values)[name := v])
    {
      values := values[name := v];
      model := model.(values := values);
    }

    /** A create method: a new object of class `childCls`, kept at the end of `created`. */
    method Create(childCls: string) returns (c: Target)
      requires Valid()
      modifies this
      ensures Valid() && fresh(c) && fresh(c.Repr) && c.Valid() && c.cls == childCls
      ensures c.model == NewObject(childCls)
      ensures created == old(created) + [c] && Repr == old(Repr) + c.Repr
      ensures model == old(model).(created := old(model.created) + [c.model])
    {
      c := new Target(childCls);
      created := created + [c];
      model := model.(created := model.created + [c.model]);
      Repr := Repr + c.Repr;
    }

    /** Takes in the new state of the last created object after it has been populated in
        place. */
    ghost method Refresh()
      requires |created| > 0 && Mirrored()
      requires forall i :: 0 <= i < |created| - 1 ==> ChildValid(i)
      requires forall i, j :: 0 <= i < j < |created| - 1 ==> created[i].Repr !! created[j].Repr
      requires created[|created| - 1].Valid() && this !in created[|created| - 1].Repr
      requires forall i :: 0 <= i < |created| - 1 ==> created[i].Repr !! created[|created| - 1].Repr
      modifies this
      ensures Valid()
      ensures Repr == old(Repr) + created[|created| - 1].Repr
      ensures model == old(model).(created := old(model.created)[..|created| - 1] + [created[|created| - 1].model])
    {
      var c := created[|created| - 1];
      forall i | 0 <= i < |created| - 1
        ensures created[i] in Repr && created[i].Repr <= Repr && this !in created[i].Repr
        ensures created[i].model == model.created[i] && created[i].Valid()
      {
        assert ChildValid(i);
      }
      model := model.(created := model.created[..|created| - 1] + [c.model]);
      Repr := Repr + c.Repr;
    }
  }

  /** setProperty on a target object. */
  method SetProperty(info: ClassInfo, dates: DateCodec, obj: Target, propertyName: string, text: string)
    returns (error: Option<Error>)
    requires obj.Valid()
    modifies obj
    ensures obj.Valid() && obj.Repr == old(obj.Repr)
    ensures Bound(obj.model, error) == Assign(info, dates, old(obj.model), propertyName, text)
  {
    var name := ToPropertyName(propertyName);
    if name.None? {
      return Some(MalformedName(propertyName));
    }
    var descriptor := FindProperty(info.properties, name.value);
    if descriptor.None? || !descriptor.value.writable {
      return None;
    }
    var argument := Coerce(dates, descriptor.value.kind, text);
    if argument.Failure? {
      return Some(argument.error);
    }
    obj.Set(name.value, argument.value);
    return None;
  }

  /** setContentsAsProperty on a target object. */
  method SetContentsAsProperty(info: ClassInfo, dates: DateCodec, obj: Target, propertyNode: Node, propertyName: string)
    returns (error: Option<Error>)
    requires propertyNode.Element? && obj.Valid()
    modifies obj
    ensures obj.Valid() && obj.Repr == old(obj.Repr)
    ensures Bound(obj.model, error) == AssignContents(info, dates, old(obj.model), propertyNode, propertyName)
  {
    var text := CollectContents(propertyNode);
    error := SetProperty(info, dates, obj, propertyName, text);
  }

  /** interpretNode on a target object. */
  method InterpretNode(schema: Schema, dates: DateCodec, node: Node, obj: Target) returns (error: Option<Error>)
    requires node.Element? && Closed(schema) && obj.cls in schema && obj.Valid()
    modifies obj
    ensures obj.Valid() && fresh(obj.Repr - old(obj.Repr))
    ensures Bound(obj.model, error) == BindElement(schema, dates, node, old(obj.model))
    decreases node, 2
  {
    error := SetAttributes(schema[obj.cls], dates, node, obj);
    if error.Some? {
      return;
    }
    error := InterpretChildren(schema, dates, node, obj);
  }

  /** The attribute loop of interpretNode: each attribute sets the property it names. */
  method SetAttributes(info: ClassInfo, dates: DateCodec, node: Node, obj: Target) returns (error: Option<Error>)
    requires node.Element? && obj.Valid()
    modifies obj
    ensures obj.Valid() && obj.Repr == old(obj.Repr)
    ensures Bound(obj.model, error) == ApplyAttributes(info, dates, node.attributes, 0, old(obj.model))
  {
    var i := 0;
    while i < |node.attributes|
      invariant 0 <= i <= |node.attributes|
      invariant obj.Valid() && obj.Repr == old(obj.Repr)
      invariant ApplyAttributes(info, dates, node.attributes, i, obj.model)
                == ApplyAttributes(info, dates, node.attributes, 0, old(obj.model))
    {
      var attribute := node.attributes[i];
      var name := ToPropertyName(attribute.name);
      if name.None? {
        return Some(MalformedName(attribute.name));
      }
      error := SetProperty(info, dates, obj, name.value, attribute.value);
      if error.Some? {
        return;
      }
      i := i + 1;
    }
    return None;
  }

  /** The child loop of interpretNode: nested elements are interpreted, text and CDATA
      sections set the `text` property from all the text of the node. */
  method InterpretChildren(schema: Schema, dates: DateCodec, node: Node, obj: Target) returns (error: Option<Error>)
    requires node.Element? && Closed(schema) && obj.cls in schema && obj.Valid()
    modifies obj
    ensures obj.Valid() && fresh(obj.Repr - old(obj.Repr))
    ensures Bound(obj.model, error) == BindChildren(schema, dates, node, 0, old(obj.model))
    decreases node, 1
  {
    var info := schema[obj.cls];
    var i := 0;
    while i < |node.children|
      invariant 0 <= i <= |node.children|
      invariant obj.Valid() && fresh(obj.Repr - old(obj.Repr))
      invariant BindChildren(schema, dates, node, i, obj.model) == BindChildren(schema, dates, node, 0, old(obj.model))
    {
      var child := node.children[i];
      match child {
        case Element(_, _, _) =>
          error := InterpretNestedElement(schema, dates, obj, child);
        case Text(_) =>
          error := SetContentsAsProperty(info, dates, obj, node, "text");
        case CData(_) =>
          error := SetContentsAsProperty(info, dates, obj, node, "text");
        case Other =>
          error := None;
      }
      if error.Some? {
        return;
      }
      i := i + 1;
    }
    return None;
  }

  /** interpretNestedElement on a target object. */
  method InterpretNestedElement(schema: Schema, dates: DateCodec, obj: Target, child: Node) returns (error: Option<Error>)
    requires child.Element? && Closed(schema) && obj.cls in schema && obj.Valid()
    modifies obj
    ensures obj.Valid() && fresh(obj.Repr - old(obj.Repr))
    ensures Bound(obj.model, error) == BindNested(schema, dates, child, old(obj.model))
    decreases child, 3
  {
    var info := schema[obj.cls];
    var methodName := CreateMethodName(child.name);
    if methodName.None? {
      return Some(MalformedName(child.name));
    }
    if methodName.value in info.creators {
      var sub := obj.Create(info.creators[methodName.value]);
      error := InterpretNode(schema, dates, child, sub);
      obj.Refresh();
    } else {
      error := SetContentsAsProperty(info, dates, obj, child, child.name);
    }
  }

  /** build: binds the document into the root object and returns the first error, if any. */
  method Build(schema: Schema, dates: DateCodec, document: seq<Node>, root: Target) returns (error: Option<Error>)
    requires Closed(schema) && root.cls in schema && root.Valid()
    modifies root
    ensures root.Valid() && fresh(root.Repr - old(root.Repr))
    ensures Bound(root.model, error) == BindDocument(schema, dates, document, old(root.model))
  {
    var node := RootNode(document);
    if node.None? {
      return Some(NoRootNode);
    }
    error := InterpretNode(schema, dates, node.value, root);
  }

  // ---------------------------------------------------------------------------------
  // Properties of setProperty

  /** A hyphenated name and its normalised form set the same property: normalising the
      attribute name before setProperty normalises it again changes nothing. */
  lemma AssignNormalises(info: ClassInfo, dates: DateCodec, obj: ObjValue, name: string, text: string)
    requires PropertyName(name).Some?
    ensures Assign(info, dates, obj, PropertyName(name).value, text) == Assign(info, dates, obj, name, text)
  {
    PropertyNameIdempotent(name);
  }

  /** An attribute that sets its property without error hands the object on to the next. */
  lemma ApplyAttributesStep(info: ClassInfo, dates: DateCodec, attributes: seq<Attr>, i: nat, obj: ObjValue, next: ObjValue)
    requires i < |attributes| && PropertyName(attributes[i].name).Some?
    requires Assign(info, dates, obj, PropertyName(attributes[i].name).value, attributes[i].value) == Bound(next, None)
    ensures ApplyAttributes(info, dates, attributes, i, obj) == ApplyAttributes(info, dates, attributes, i + 1, next)
  {
  }

  /** A child that binds without error hands the object on to the next child. */
  lemma BindChildrenStep(schema: Schema, dates: DateCodec, node: Node, i: nat, obj: ObjValue, next: ObjValue)
    requires node.Element? && i < |node.children| && Closed(schema) && obj.cls in schema
    requires BindChild(schema, dates, node, node.children[i], obj) == Bound(next, None)
    ensures next.cls in schema
    ensures BindChildren(schema, dates, node, i, obj) == BindChildren(schema, dates, node, i + 1, next)
  {
  }

  /** A property the class declares with a write method receives the text converted to the
      property's type. */
  lemma AssignStores(info: ClassInfo, dates: DateCodec, obj: ObjValue, name: string, text: string, d: Descriptor, v: Value)
    requires PropertyName(name).Some?
    requires FindProperty(info.properties, PropertyName(name).value) == Some(d) && d.writable
    requires Coerce(dates, d.kind, text) == Success(v)
    ensures Assign(info, dates, obj, name, text)
            == Bound(obj.(values := obj.values[PropertyName(name).value := v]), None)
  {
  }

  /** setProperty changes at most the one property its normalised name denotes, and only
      one the class declares with a write method; every other value stays as it was. */
  lemma AssignFrame(info: ClassInfo, dates: DateCodec, obj: ObjValue, name: string, text: string, k: string)
    requires PropertyName(name).None? || k != PropertyName(name).value
             || FindProperty(info.properties, k).None? || !FindProperty(info.properties, k).value.writable
    ensures var r := Assign(info, dates, obj, name, text).obj;
            (k in r.values <==> k in obj.values) && (k in obj.values ==> r.values[k] == obj.values[k])
  {
  }

  /** A child element for which the class has no create method sets the property of the
      element's normalised name to the element's text, converted to the property's type. */
  lemma NestedStores(schema: Schema, dates: DateCodec, child: Node, obj: ObjValue, d: Descriptor, v: Value)
    requires child.Element? && Closed(schema) && obj.cls in schema
    requires CreateMethodName(child.name).Some? && CreateMethodName(child.name).value !in schema[obj.cls].creators
    requires PropertyName(child.name).Some?
    requires FindProperty(schema[obj.cls].properties, PropertyName(child.name).value) == Some(d) && d.writable
    requires Coerce(dates, d.kind, Contents(child.children)) == Success(v)
    ensures BindNested(schema, dates, child, obj)
            == Bound(obj.(values := obj.values[PropertyName(child.name).value := v]), None)
  {
    AssignStores(schema[obj.cls], dates, obj, child.name, Contents(child.children), d, v);
  }

  /** A property the class does not declare, or declares without a write method, is skipped
      silently: the object is unchanged and no error is reported. */
  lemma AssignSkipsSilently(info: ClassInfo, dates: DateCodec, obj: ObjValue, name: string, text: string)
    requires PropertyName(name).Some?
    requires FindProperty(info.properties, PropertyName(name).value).None?
             || !FindProperty(info.properties, PropertyName(name).value).value.writable
    ensures Assign(info, dates, obj, name, text) == Bound(obj, None)
  {
  }

  /** The attribute loop from attribute `i` on leaves alone every property that no remaining
      attribute's normalised name denotes. */
  lemma {:induction false} ApplyAttributesFrame(info: ClassInfo, dates: DateCodec, attributes: seq<Attr>, i: nat, obj: ObjValue, k: string)
    requires i <= |attributes|
    requires forall m :: i <= m < |attributes| ==> PropertyName(attributes[m].name) != Some(k)
    ensures var r := ApplyAttributes(info, dates, attributes, i, obj).obj;
            (k in r.values <==> k in obj.values) && (k in obj.values ==> r.values[k] == obj.values[k])
    decreases |attributes| - i
  {
    if i < |attributes| && PropertyName(attributes[i].name).Some? {
      var n := PropertyName(attributes[i].name).value;
      PropertyNameIdempotent(attributes[i].name);
      AssignFrame(info, dates, obj, n, attributes[i].value, k);
      var b := Assign(info, dates, obj, n, attributes[i].value);
      if b.error.None? {
        ApplyAttributesFrame(info, dates, attributes, i + 1, b.obj, k);
      }
    }
  }

  /** When the attribute loop succeeds, the last attribute whose normalised name denotes a
      property with a write method leaves that property holding the attribute's value,
      converted to the property's type. */
  lemma {:induction false} ApplyAttributesStores(info: ClassInfo, dates: DateCodec, attributes: seq<Attr>, i: nat, obj: ObjValue, m: nat, d: Descriptor)
    requires i <= m < |attributes|
    requires ApplyAttributes(info, dates, attributes, i, obj).error.None?
    requires PropertyName(attributes[m].name).Some?
    requires FindProperty(info.properties, PropertyName(attributes[m].name).value) == Some(d) && d.writable
    requires forall p :: m < p < |attributes| ==> PropertyName(attributes[p].name) != PropertyName(attributes[m].name)
    ensures var r := ApplyAttributes(info, dates, attributes, i, obj).obj;
            var k := PropertyName(attributes[m].name).value;
            k in r.values && Coerce(dates, d.kind, attributes[m].value) == Success(r.values[k])
    decreases m - i
  {
    var n := PropertyName(attributes[i].name).value;
    var b := Assign(info, dates, obj, n, attributes[i].value);
    assert b.error.None?;
    if i < m {
      ApplyAttributesStores(info, dates, attributes, i + 1, b.obj, m, d);
    } else {
      PropertyNameIdempotent(attributes[m].name);
      assert n in b.obj.values && Coerce(dates, d.kind, attributes[m].value) == Success(b.obj.values[n]);
      ApplyAttributesFrame(info, dates, attributes, m + 1, b.obj, n);
    }
  }

  /** A text or CDATA child sets `text` to the contents of its whole parent, whatever the
      object held under `text` before, including a value an earlier `<text>` child element
      stored there. */
  lemma TextChildRestores(schema: Schema, dates: DateCodec, parent: Node, child: Node, obj: ObjValue, d: Descriptor, v: Value)
    requires parent.Element? && child in parent.children && Textual(child)
    requires Closed(schema) && obj.cls in schema
    requires FindProperty(schema[obj.cls].properties, "text") == Some(d) && d.writable
    requires Coerce(dates, d.kind, Contents(parent.children)) == Success(v)
    ensures BindChild(schema, dates, parent, child, obj) == Bound(obj.(values := obj.values["text" := v]), None)
  {
    PropertyNameOfPlainName("text");
    AssignStores(schema[obj.cls], dates, obj, "text", Contents(parent.children), d, v);
  }

  /** Setting a property twice to the same text is the same as setting it once: text or
      CDATA children that follow each other set `text` to the same contents. */
  lemma AssignTwice(info: ClassInfo, dates: DateCodec, obj: ObjValue, name: string, text: string)
    requires Assign(info, dates, obj, name, text).error.None?
    ensures Assign(info, dates, Assign(info, dates, obj, name, text).obj, name, text)
            == Assign(info, dates, obj, name, text)
  {
  }

  // ---------------------------------------------------------------------------------
  // The objects that binding creates

  /** The object a child node makes: one bound from the child when it is an element whose
      create method the class has, none otherwise. */
  function SpawnedBy(schema: Schema, dates: DateCodec, cls: string, child: Node): seq<ObjValue>
    requires Closed(schema) && cls in schema
  {
    match child
    case Element(name, _, _) =>
      (match CreateMethodName(name)
       case Some(m) =>
         if m in schema[cls].creators
         then [BindElement(schema, dates, child, NewObject(schema[cls].creators[m])).obj]
         else []
       case None => [])
    case _ => []
  }

  /** The objects made for the create-method elements among `kids`, in document order. */
  function Spawned(schema: Schema, dates: DateCodec, cls: string, kids: seq<Node>): seq<ObjValue>
    requires Closed(schema) && cls in schema
  {
    if kids == [] then [] else SpawnedBy(schema, dates, cls, kids[0]) + Spawned(schema, dates, cls, kids[1..])
  }

  /** A child that binds without error adds exactly what it spawns. */
  lemma BindChildSpawns(schema: Schema, dates: DateCodec, parent: Node, child: Node, obj: ObjValue)
    requires parent.Element? && child in parent.children && Closed(schema) && obj.cls in schema
    requires BindChild(schema, dates, parent, child, obj).error.None?
    ensures BindChild(schema, dates, parent, child, obj).obj.created
            == obj.created + SpawnedBy(schema, dates, obj.cls, child)
  {
    if !child.Element? || CreateMethodName(child.name).None?
       || CreateMethodName(child.name).value !in schema[obj.cls].creators {
      assert obj.created + [] == obj.created;
    }
  }

  /** When binding the children succeeds, the object gains exactly one created object per
      child element with a create method, in document order, and nothing else. */
  lemma {:induction false} BindChildrenSpawns(schema: Schema, dates: DateCodec, node: Node, i: nat, obj: ObjValue)
    requires node.Element? && i <= |node.children| && Closed(schema) && obj.cls in schema
    requires BindChildren(schema, dates, node, i, obj).error.None?
    ensures BindChildren(schema, dates, node, i, obj).obj.created
            == obj.created + Spawned(schema, dates, obj.cls, node.children[i..])
    decreases |node.children| - i
  {
    if i < |node.children| {
      var b := BindChild(schema, dates, node, node.children[i], obj);
      BindChildSpawns(schema, dates, node, node.children[i], obj);
      BindChildrenSpawns(schema, dates, node, i + 1, b.obj);
      assert node.children[i..][1..] == node.children[i + 1..];
      assert (obj.created + SpawnedBy(schema, dates, obj.cls, node.children[i]))
               + Spawned(schema, dates, obj.cls, node.children[i + 1..])
             == obj.created + (SpawnedBy(schema, dates, obj.cls, node.children[i])
               + Spawned(schema, dates, obj.cls, node.children[i + 1..]));
    } else {
      assert obj.created + [] == obj.created;
    }
  }

  /** The same for a whole element: attributes never create objects. */
  lemma BindElementSpawns(schema: Schema, dates: DateCodec, node: Node, obj: ObjValue)
    requires node.Element? && Closed(schema) && obj.cls in schema
    requires BindElement(schema, dates, node, obj).error.None?
    ensures BindElement(schema, dates, node, obj).obj.created
            == obj.created + Spawned(schema, dates, obj.cls, node.children)
  {
    var b := ApplyAttributes(schema[obj.cls], dates, node.attributes, 0, obj);
    BindChildrenSpawns(schema, dates, node, 0, b.obj);
    assert node.children[0..] == node.children;
  }

  // ---------------------------------------------------------------------------------
  // Binding keeps the object graph well typed

  /** `v` may be stored under `name` in an object of class `info`: the class declares the
      property with a write method, and `v` has the property's type. */
  predicate Storable(info: ClassInfo, name: string, v: Value) {
    match FindProperty(info.properties, name)
    case None => false
    case Some(d) => d.writable && HasKind(v, d.kind)
  }

  /** Every object of the graph belongs to a class of the schema, holds only values its
      write methods accept, and created only objects of classes its create methods return. */
  predicate WellTyped(schema: Schema, o: ObjValue)
    decreases o
  {
    && o.cls in schema
    && (forall k :: k in o.values ==> Storable(schema[o.cls], k, o.values[k]))
    && (forall i :: 0 <= i < |o.created| ==>
          && o.created[i].cls in schema[o.cls].creators.Values
          && WellTyped(schema, o.created[i]))
  }

  lemma AssignWellTyped(schema: Schema, dates: DateCodec, obj: ObjValue, name: string, text: string)
    requires WellTyped(schema, obj)
    ensures WellTyped(schema, Assign(schema[obj.cls], dates, obj, name, text).obj)
  {
  }

  lemma {:induction false} ApplyAttributesWellTyped(schema: Schema, dates: DateCodec, attributes: seq<Attr>, i: nat, obj: ObjValue)
    requires i <= |attributes| && WellTyped(schema, obj)
    ensures WellTyped(schema, ApplyAttributes(schema[obj.cls], dates, attributes, i, obj).obj)
    decreases |attributes| - i
  {
    if i < |attributes| && PropertyName(attributes[i].name).Some? {
      var b := Assign(schema[obj.cls], dates, obj, PropertyName(attributes[i].name).value, attributes[i].value);
      AssignWellTyped(schema, dates, obj, PropertyName(attributes[i].name).value, attributes[i].value);
      if b.error.None? {
        ApplyAttributesWellTyped(schema, dates, attributes, i + 1, b.obj);
      }
    }
  }

  lemma {:induction false} BindElementWellTyped(schema: Schema, dates: DateCodec, node: Node, obj: ObjValue)
    requires node.Element? && Closed(schema) && WellTyped(schema, obj)
    ensures WellTyped(schema, BindElement(schema, dates, node, obj).obj)
    decreases node, 2
  {
    var b := ApplyAttributes(schema[obj.cls], dates, node.attributes, 0, obj);
    ApplyAttributesWellTyped(schema, dates, node.attributes, 0, obj);
    if b.error.None? {
      BindChildrenWellTyped(schema, dates, node, 0, b.obj);
    }
  }

  lemma {:induction false} BindChildrenWellTyped(schema: Schema, dates: DateCodec, node: Node, i: nat, obj: ObjValue)
    requires node.Element? && i <= |node.children| && Closed(schema) && WellTyped(schema, obj)
    ensures WellTyped(schema, BindChildren(schema, dates, node, i, obj).obj)
    decreases node, 1, |node.children| - i
  {
    if i < |node.children| {
      var b := BindChild(schema, dates, node, node.children[i], obj);
      BindChildWellTyped(schema, dates, node, node.children[i], obj);
      if b.error.None? {
        BindChildrenWellTyped(schema, dates, node, i + 1, b.obj);
      }
    }
  }

  lemma {:induction false} BindChildWellTyped(schema: Schema, dates: DateCodec, parent: Node, child: Node, obj: ObjValue)
    requires parent.Element? && child in parent.children && Closed(schema) && WellTyped(schema, obj)
    ensures WellTyped(schema, BindChild(schema, dates, parent, child, obj).obj)
    decreases parent, 0
  {
    match child
    case Element(_, _, _) => BindNestedWellTyped(schema, dates, child, obj);
    case Text(_) => AssignWellTyped(schema, dates, obj, "text", Contents(parent.children));
    case CData(_) => AssignWellTyped(schema, dates, obj, "text", Contents(parent.children));
    case Other =>
  }

  lemma {:induction false} BindNestedWellTyped(schema: Schema, dates: DateCodec, child: Node, obj: ObjValue)
    requires child.Element? && Closed(schema) && WellTyped(schema, obj)
    ensures WellTyped(schema, BindNested(schema, dates, child, obj).obj)
    decreases child, 3
  {
    match CreateMethodName(child.name)
    case None =>
    case Some(m) =>
      if m in schema[obj.cls].creators {
        var cls := schema[obj.cls].creators[m];
        BindElementWellTyped(schema, dates, child, NewObject(cls));
        var sub := BindElement(schema, dates, child, NewObject(cls));
        var created := obj.created + [sub.obj];
        assert forall i :: 0 <= i < |obj.created| ==> created[i] == obj.created[i];
        assert created[|obj.created|] == sub.obj;
      } else {
        AssignWellTyped(schema, dates, obj, child.name, Contents(child.children));
      }
  }

  /** Whatever the outcome, binding a document leaves a well-typed object graph. */
  lemma BindDocumentWellTyped(schema: Schema, dates: DateCodec, document: seq<Node>, root: ObjValue)
    requires Closed(schema) && WellTyped(schema, root)
    ensures WellTyped(schema, BindDocument(schema, dates, document, root).obj)
  {
    if RootNode(document).Some? {
      BindElementWellTyped(schema, dates, RootNode(document).value, root);
    }
  }
}
