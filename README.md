# xmlsemantics in Dafny

A model of `XmlSemantics`, the class of the xmlsemantics library that binds an XML document
into a graph of Java beans and writes such a graph back out as XML. The binding is driven by
naming conventions: an attribute or element `value-recorded` sets the bean property
`valueRecorded`, an element `color` is bound into the object the parent's `createColor()`
returns, and text and CDATA children set the property `text`. The serializer writes a tree of
writeable elements: an element with text contents or with nothing nested takes one line,
any other element a start-tag line, the lines of its nested elements three blanks deeper, and
an end-tag line.

The model has six modules:

- `Names`: `toPropertyName` (a `while` loop, proved against the reference rewrite `Camel`)
  and `getCreateMethodName`.
- `Dom`: the parsed document as a `Node` datatype, `getRootNode`, `String.trim` and the
  text-collecting loop of `setContentsAsProperty`.
- `Properties`: property descriptors, `getProperty`, the conversions of
  `toPropertyArgumentArray` (`Integer`, `Boolean.valueOf`, the date parse) and the text a
  value prints as.
- `Binder`: the reflection the binder relies on becomes a `Schema` that lists, per class,
  its bean properties and its create methods. Target objects are instances of the class
  `Target`, updated in place by `SetProperty`, `InterpretNode` and the other methods, each
  proved to reach the state the specification functions (`Assign`, `BindElement`, ...)
  compute. Lemmas show that binding keeps the object graph well typed, creates one object per
  create-method element in document order, stores each attribute under its normalised name,
  skips missing properties silently, and reports a missing root only for a document without
  an element.
- `Serializer`: the writeable element as a datatype, `getStringProperty`, and
  `appendElement`/`generateXML` as methods over a `StringBuffer` class, proved against the
  function `Render`. `Render` is shown to be the layout of a list of lines; the lines are
  indented three blanks per level and their tags balance.
- `Fixtures`: the test classes `TestObject` and `TestColor` as a schema, and the five test
  documents bound into a new `TestObject`.

`LINE_BREAK` is the parameter `lb`. The date parse (`new Date(String)`) and the shared date
format are the two functions of a `DateCodec` parameter.

Behaviours of the code worth noting:

- Every text or CDATA child of an element calls `setContentsAsProperty` again; the calls are
  not merged into one. Text and CDATA children that follow each other set `text` to the same
  value (`Binder.AssignTwice`). A later one sets `text` back to the contents of the whole
  parent, replacing whatever a `<text>` child element between them stored
  (`Binder.TextChildRestores`).
- An element with non-null contents is written with its contents only; its nested groups
  are ignored rather than ruled out.
- An explicit attribute whose property exists but has no read method makes writing fail.
  Only a missing property or a null value is written as an empty value.
- Dates are read with the lenient `new Date(String)` parse, not with the `d-MMM-yyyy`
  format, which is only used for writing.

## Model

| member | source | states |
|---|---|---|
| Names.ToPropertyName | src/main/java/com/meterware/xml/XmlSemantics.java:102-111 | the `while` loop returns exactly `PropertyName(attributeName)`: the name unchanged when it has no hyphen or starts with one, otherwise each hyphen removed and the character after it upper-cased, and None (the out-of-bounds `charAt`) for a trailing hyphen |
| Names.CreateMethodName | src/main/java/com/meterware/xml/XmlSemantics.java:127-133 | a create method name exists exactly when the name is non-empty and normalises, and it then starts with `create` |
| Names.CamelPass | src/main/java/com/meterware/xml/XmlSemantics.java:105-108 | one pass of the loop (drop the first hyphen, upper-case the next character) leaves the camel-case result unchanged; this is the loop invariant of `ToPropertyName` |
| Names.CamelFails | src/main/java/com/meterware/xml/XmlSemantics.java:105-108 | the reference rewrite fails exactly when the name ends in a hyphen (or is empty right after one) |
| Names.CamelRemovesHyphens | src/main/java/com/meterware/xml/XmlSemantics.java:105-109 | a successful rewrite has no hyphen left and is shorter than its input by the number of hyphens |
| Names.Camel | src/main/java/com/meterware/xml/XmlSemantics.java:105-109 | the reference rewrite of the loop: a successful result holds no hyphen and is no longer than its input |
| Names.PropertyName | src/main/java/com/meterware/xml/XmlSemantics.java:102-111 | the normalised name is no longer than the input, and holds no hyphen unless the input starts with one |
| Names.PropertyNameOfPlainName | src/main/java/com/meterware/xml/XmlSemantics.java:103 | a name without hyphens is returned unchanged |
| Names.PropertyNameFails | src/main/java/com/meterware/xml/XmlSemantics.java:105-108 | normalisation fails exactly for a non-empty name that does not start with a hyphen and ends with one |
| Names.PropertyNameRemovesHyphens | src/main/java/com/meterware/xml/XmlSemantics.java:105-110 | unless the name starts with a hyphen, the result holds no hyphen and each removed hyphen shortens it by one |
| Names.PropertyNameLength | src/main/java/com/meterware/xml/XmlSemantics.java:105-110 | the normalised name is empty exactly when the input is |
| Names.PropertyNameIdempotent | src/main/java/com/meterware/xml/XmlSemantics.java:102-111 | normalising a normalised name changes nothing |
| Names.CreateMethodNameOfNormalised | src/main/java/com/meterware/xml/XmlSemantics.java:127-128 | an element name and its normalised form look for the same create method |
| Names.OneHyphen | src/main/java/com/meterware/xml/XmlSemantics.java:105-108 | a name with one inner hyphen loses it and has the next character upper-cased |
| Names.HyphenatedExample | src/test/java/com/meterware/xml/XmlSemanticsTest.java:43-50 | `value-recorded` normalises to `valueRecorded` |
| Names.DoubledHyphenExample | src/main/java/com/meterware/xml/XmlSemantics.java:105-108 | `a--b` normalises to `aB` (two passes) |
| Names.EdgeHyphenExamples | src/main/java/com/meterware/xml/XmlSemantics.java:103-107 | a leading hyphen stops the loop (`-a-b` unchanged); a trailing hyphen (`a-b-`) is a failure |
| Names.CreateColorExample | src/test/java/com/meterware/xml/XmlSemanticsTest.java:97 | `color` is created by `createColor` |
| Dom.RootNode | src/main/java/com/meterware/xml/XmlSemantics.java:74-79 | None exactly when no top-level node is an element; otherwise the first element among them |
| Dom.Trim | src/main/java/com/meterware/xml/XmlSemantics.java:142 | the result is a slice `s[i..j]` of its input with only blank characters (up to U+0020) before `i` and from `j` on, and it neither starts nor ends with a blank; a string without blank ends is unchanged; an all-blank string becomes empty |
| Dom.TrimBetween | src/main/java/com/meterware/xml/XmlSemantics.java:142 | a string that is blank outside a slice with non-blank characters at both of its ends trims to exactly that slice |
| Dom.CollectContents | src/main/java/com/meterware/xml/XmlSemantics.java:137-150 | the loop guarded by `haveAllContents` builds exactly `Contents(children)`: trimmed text and verbatim CDATA, in order, up to the first child of another kind |
| Dom.ContentsOfTextualPrefix | src/main/java/com/meterware/xml/XmlSemantics.java:139-146 | text and CDATA children contribute in order: the contents of `prefix + rest` are those of `prefix` followed by those of `rest` |
| Dom.Contents | src/main/java/com/meterware/xml/XmlSemantics.java:137-150 | the reference text of an element: trimmed text and verbatim CDATA, in order, up to the first child of another kind; it carries no contract of its own, and `CollectContents`, `ContentsOfTextualPrefix` and `ContentsStopAtFirstOther` state it |
| Dom.ContentsStopAtFirstOther | src/main/java/com/meterware/xml/XmlSemantics.java:147-148 | nothing after the first child that is neither text nor CDATA counts |
| Dom.ContentsExamples | src/test/java/com/meterware/xml/XmlSemanticsTest.java:53-60 | CDATA ` a phrase` keeps its leading blank; the text `  aValue ` is trimmed to `aValue`, and a CDATA section after a comment is ignored |
| Dom.ContentsOfPlainText | src/main/java/com/meterware/xml/XmlSemantics.java:142-143 | a single text child without blank ends is the contents unchanged |
| Properties.FindProperty | src/main/java/com/meterware/xml/XmlSemantics.java:180-186 | None exactly when no descriptor has that exact name; otherwise the first descriptor with that name |
| Properties.ParseInt | src/main/java/com/meterware/xml/XmlSemantics.java:169 | every number read lies in the range of a Java `int` |
| Properties.ParseIntOfIntToString | src/main/java/com/meterware/xml/XmlSemantics.java:169 | every `int` written by Integer.toString reads back as itself |
| Properties.ParseIntExample | src/test/java/com/meterware/xml/XmlSemanticsTest.java:18-22 | `2` reads as 2 |
| Properties.ParseIntRefusesMalformed | src/main/java/com/meterware/xml/XmlSemantics.java:169 | a lone `-` and `2a` are not numbers |
| Properties.ParseIntRefusesOverflow | src/main/java/com/meterware/xml/XmlSemantics.java:169 | the digits of a number above the largest `int`, with or without `+`, are refused |
| Properties.ParseBool | src/main/java/com/meterware/xml/XmlSemantics.java:173 | only a four-letter text starting with `t` and ending with `e`, in either case, reads as true |
| Properties.ParseBoolExamples | src/main/java/com/meterware/xml/XmlSemantics.java:173 | `true` in any case is true; `false`, `yes`, the empty string and `true ` are false |
| Properties.ParseBoolOfBoolToString | src/main/java/com/meterware/xml/XmlSemantics.java:173 | every boolean written by Boolean.toString reads back as itself |
| Properties.Coerce | src/main/java/com/meterware/xml/XmlSemantics.java:165-177 | a converted value has the declared type; conversion fails exactly for an unsupported type, an unparsable int or an unparsable date; an unsupported type fails as "not supported" |
| Properties.ValueText | src/main/java/com/meterware/xml/XmlSemantics.java:274-275 | the text of an `int` value reads back as that value, and that of a boolean value reads back as that boolean |
| Properties.CoerceOfValueText | src/main/java/com/meterware/xml/XmlSemantics.java:165-177 | a value of a supported type, printed as getStringProperty prints it, converts back to itself (for dates when format and parse agree) |
| Binder.Assign | src/main/java/com/meterware/xml/XmlSemantics.java:155-162 | setting a property never changes the object's class or the objects it created, and never reports a missing root |
| Binder.AssignContents | src/main/java/com/meterware/xml/XmlSemantics.java:136-152 | the same for setting a property from an element's text |
| Binder.ApplyAttributes | src/main/java/com/meterware/xml/XmlSemantics.java:85-91 | the attribute loop keeps the class and the created objects and never reports a missing root |
| Binder.ApplyAttributesFrame | src/main/java/com/meterware/xml/XmlSemantics.java:85-91 | a property that no remaining attribute's normalised name denotes keeps its value |
| Binder.ApplyAttributesStores | src/main/java/com/meterware/xml/XmlSemantics.java:85-91 | when the loop succeeds, the last attribute whose normalised name denotes a declared writable property leaves that property holding the attribute's value converted to the property's type |
| Binder.BindElement | src/main/java/com/meterware/xml/XmlSemantics.java:82-98 | interpreting an element keeps the class, only adds created objects at the end, and never reports a missing root |
| Binder.BindChildren | src/main/java/com/meterware/xml/XmlSemantics.java:92-98 | the child loop keeps the class, only adds created objects at the end, and never reports a missing root |
| Binder.BindChild | src/main/java/com/meterware/xml/XmlSemantics.java:93-97 | one child keeps the class, only adds created objects at the end, and never reports a missing root |
| Binder.BindNested | src/main/java/com/meterware/xml/XmlSemantics.java:114-124 | a nested element keeps the class, only adds created objects at the end, and never reports a missing root |
| Binder.NestedStores | src/main/java/com/meterware/xml/XmlSemantics.java:119-120 | for any closed schema, an element the class has no create method for sets the property of its normalised name to its text converted to the property's type, and reports no error |
| Binder.BindDocument | src/main/java/com/meterware/xml/XmlSemantics.java:61-79 | binding a document keeps the class and only adds created objects at the end; it fails with "Document has no root node" exactly when no top-level node is an element |
| Binder.Target.Set | src/main/java/com/meterware/xml/XmlSemantics.java:161 | a write method stores the value under its property and changes nothing else |
| Binder.Target.Create | src/main/java/com/meterware/xml/XmlSemantics.java:116-117 | a create method returns a new object of the class the schema names and appends it to the created objects |
| Binder.SetProperty | src/main/java/com/meterware/xml/XmlSemantics.java:155-162 | the new state and the error are those of `Assign` on the old state |
| Binder.SetContentsAsProperty | src/main/java/com/meterware/xml/XmlSemantics.java:136-152 | the new state and the error are those of `AssignContents` on the old state |
| Binder.InterpretNode | src/main/java/com/meterware/xml/XmlSemantics.java:82-98 | the new state of the object graph and the error are those of `BindElement` on the old state |
| Binder.SetAttributes | src/main/java/com/meterware/xml/XmlSemantics.java:85-91 | the attribute loop reaches the state and error of `ApplyAttributes` |
| Binder.InterpretChildren | src/main/java/com/meterware/xml/XmlSemantics.java:92-98 | the child loop reaches the state and error of `BindChildren` |
| Binder.InterpretNestedElement | src/main/java/com/meterware/xml/XmlSemantics.java:114-124 | the new state and the error are those of `BindNested` |
| Binder.Build | src/main/java/com/meterware/xml/XmlSemantics.java:61-64 | the new state and the error are those of `BindDocument` |
| Binder.AssignNormalises | src/main/java/com/meterware/xml/XmlSemantics.java:89 | normalising an attribute name before setProperty normalises it again sets the same property |
| Binder.AssignStores | src/main/java/com/meterware/xml/XmlSemantics.java:156-161 | a declared writable property receives the converted text under the normalised name |
| Binder.AssignFrame | src/main/java/com/meterware/xml/XmlSemantics.java:156-157 | every property other than the declared writable one the name denotes keeps its value |
| Binder.AssignSkipsSilently | src/main/java/com/meterware/xml/XmlSemantics.java:156-157 | a property the class does not declare, or declares without a write method, is skipped: the object is unchanged and no error is reported |
| Binder.TextChildRestores | src/main/java/com/meterware/xml/XmlSemantics.java:95-96 | a text or CDATA child sets a writable `text` property to the converted contents of its whole parent, whatever `text` held before, so it overwrites what a `<text>` child element stored |
| Binder.AssignTwice | src/main/java/com/meterware/xml/XmlSemantics.java:95-96 | setting a property a second time to the same text changes nothing, so text or CDATA children that follow each other set `text` to the same value |
| Binder.BindChildSpawns | src/main/java/com/meterware/xml/XmlSemantics.java:93-94 | a child that binds without error adds exactly the one object it spawns, if any |
| Binder.BindChildrenSpawns | src/main/java/com/meterware/xml/XmlSemantics.java:92-98 | when the child loop succeeds, one created object per child element with a create method, in document order, and nothing else |
| Binder.BindElementSpawns | src/main/java/com/meterware/xml/XmlSemantics.java:82-98 | the same for a whole element: attributes create nothing |
| Binder.AssignWellTyped | src/main/java/com/meterware/xml/XmlSemantics.java:155-162 | setting a property keeps every stored value of its property's declared type |
| Binder.ApplyAttributesWellTyped | src/main/java/com/meterware/xml/XmlSemantics.java:85-91 | the attribute loop keeps the object graph well typed |
| Binder.BindElementWellTyped | src/main/java/com/meterware/xml/XmlSemantics.java:82-98 | interpreting an element keeps the object graph well typed |
| Binder.BindChildrenWellTyped | src/main/java/com/meterware/xml/XmlSemantics.java:92-98 | the child loop keeps the object graph well typed |
| Binder.BindChildWellTyped | src/main/java/com/meterware/xml/XmlSemantics.java:93-97 | one child keeps the object graph well typed |
| Binder.BindNestedWellTyped | src/main/java/com/meterware/xml/XmlSemantics.java:114-120 | a nested element keeps the object graph well typed; a created object has the class its create method returns |
| Binder.BindDocumentWellTyped | src/main/java/com/meterware/xml/XmlSemantics.java:61-64 | whatever the outcome, binding leaves a well-typed object graph |
| Fixtures.TestSchema | src/test/java/com/meterware/xml/XmlSemanticsTest.java:74-110 | the schema of TestObject and TestColor is closed under create methods |
| Fixtures.PopulateFromAttributes | src/test/java/com/meterware/xml/XmlSemanticsTest.java:16-28 | the attributes set `quantity1` to `value1`, `quantity2` to 2 and `when` to the parsed date |
| Fixtures.PopulateFromNestedElements | src/test/java/com/meterware/xml/XmlSemanticsTest.java:30-40 | `<quantity1>` and `<valueRecorded>` set `quantity1` to `aValue` and `valueRecorded` to true |
| Fixtures.RecognizeHyphenatedName | src/test/java/com/meterware/xml/XmlSemanticsTest.java:42-50 | `<value-recorded>` sets `valueRecorded` to true |
| Fixtures.PopulateFromCData | src/test/java/com/meterware/xml/XmlSemanticsTest.java:52-60 | a CDATA section sets `quantity1` to ` a phrase`, leading blank kept |
| Fixtures.PopulateNestedObject | src/test/java/com/meterware/xml/XmlSemanticsTest.java:62-72 | two `<color>` elements create two TestColors, `red` then `green` |
| Fixtures.TextIgnored | src/main/java/com/meterware/xml/XmlSemantics.java:95-96 | a text child sets nothing on a class without a `text` property |
| Fixtures.ColorBinds | src/main/java/com/meterware/xml/XmlSemantics.java:114-118 | `<color name='c'>` appends a new TestColor named `c` |
| Fixtures.NotCreateColor | src/main/java/com/meterware/xml/XmlSemantics.java:127-133 | a name whose normalised form does not start with `c` has a create method other than `createColor` |
| Fixtures.BindPair | src/main/java/com/meterware/xml/XmlSemantics.java:92-98 | a root element holding two elements between blank text binds as the two elements one after the other |
| Fixtures.BindSingle | src/main/java/com/meterware/xml/XmlSemantics.java:92-98 | a root element holding one element between blank text binds as that element |
| Serializer.StringProperty | src/main/java/com/meterware/xml/XmlSemantics.java:268-280 | fails, with a missing read method as the error, exactly when the property exists without a read method; a missing property or a null value gives the empty text; a readable non-null value gives its date-formatted or `toString` text |
| Serializer.AttributesText | src/main/java/com/meterware/xml/XmlSemantics.java:235-240 | writing the attributes can fail only for a missing read method |
| Serializer.Render | src/main/java/com/meterware/xml/XmlSemantics.java:233-265 | writing an element can fail only for a missing read method |
| Serializer.RenderGroups | src/main/java/com/meterware/xml/XmlSemantics.java:248-258 | writing the nested groups can fail only for a missing read method |
| Serializer.RenderGroup | src/main/java/com/meterware/xml/XmlSemantics.java:251-257 | writing one group can fail only for a missing read method |
| Serializer.Generate | src/main/java/com/meterware/xml/XmlSemantics.java:226-230 | the output starts with the header and the line break, and fails exactly when the root element fails |
| Serializer.AppendElement | src/main/java/com/meterware/xml/XmlSemantics.java:233-265 | succeeds exactly when `Render` does, appending exactly `Render`'s text; otherwise reports `Render`'s error |
| Serializer.AppendAttributes | src/main/java/com/meterware/xml/XmlSemantics.java:235-240 | succeeds exactly when `AttributesText` does, appending exactly its text |
| Serializer.AppendNested | src/main/java/com/meterware/xml/XmlSemantics.java:248-258 | appends `>` and a line break before the first nested element and then every nested element; `isEmpty` holds exactly when there is none |
| Serializer.AppendGroup | src/main/java/com/meterware/xml/XmlSemantics.java:250-257 | appends the elements of one group, and the `>` line before the first element of the whole element |
| Serializer.GenerateXml | src/main/java/com/meterware/xml/XmlSemantics.java:226-230 | returns exactly `Generate` |
| Serializer.FormatAppended | src/main/java/com/meterware/xml/XmlSemantics.java:238 | the pieces appended for one attribute make ` name='value'` |
| Serializer.AttributesFailureStays | src/main/java/com/meterware/xml/XmlSemantics.java:236-240 | a failure among the first attributes is the failure of the whole start tag |
| Serializer.GroupFailureStays | src/main/java/com/meterware/xml/XmlSemantics.java:251-257 | a failure among the first elements of a group is the failure of the group |
| Serializer.GroupsFailureStays | src/main/java/com/meterware/xml/XmlSemantics.java:249-258 | a failure among the first groups is the failure of all of them |
| Serializer.Explicit | src/main/java/com/meterware/xml/XmlSemantics.java:237 | the explicit attributes and no others, at most as many as there are attributes |
| Serializer.ExplicitAppend | src/main/java/com/meterware/xml/XmlSemantics.java:236-237 | the filter keeps the order: the explicit attributes of a concatenation are those of the first part followed by those of the second |
| Serializer.ExplicitOnly | src/main/java/com/meterware/xml/XmlSemantics.java:236-240 | only explicit attributes are written: dropping the others changes nothing |
| Serializer.AttributesSucceed | src/main/java/com/meterware/xml/XmlSemantics.java:236-240 | the start tag can be written exactly when every explicit attribute's property is missing or readable |
| Serializer.RenderSucceeds | src/main/java/com/meterware/xml/XmlSemantics.java:233-265 | writing an element succeeds exactly when it and every element nested in it read only readable properties |
| Serializer.GroupsSucceed | src/main/java/com/meterware/xml/XmlSemantics.java:249-258 | the groups can be written exactly when each of their elements can |
| Serializer.GroupSucceeds | src/main/java/com/meterware/xml/XmlSemantics.java:251-257 | a group can be written exactly when each of its elements can |
| Serializer.CountZero | src/main/java/com/meterware/xml/XmlSemantics.java:259-260 | no nested element in any group exactly when every group is empty |
| Serializer.RenderIsLayout | src/main/java/com/meterware/xml/XmlSemantics.java:233-265 | an element written at `n` blanks is the layout of its lines: a text line, a self-closed tag, or start tag, nested lines three blanks deeper and end tag |
| Serializer.TextLineLayout | src/main/java/com/meterware/xml/XmlSemantics.java:243-246 | non-null contents give one line `<n ...>contents</n>`, nested groups ignored |
| Serializer.EmptyTagLayout | src/main/java/com/meterware/xml/XmlSemantics.java:259-260 | no contents and no nested element give one self-closed tag |
| Serializer.NestedLayout | src/main/java/com/meterware/xml/XmlSemantics.java:248-262 | otherwise a start tag line, the nested lines and the end tag at the parent's indentation |
| Serializer.GroupsIsLayout | src/main/java/com/meterware/xml/XmlSemantics.java:249-258 | the nested groups are the layout of their lines |
| Serializer.GroupIsLayout | src/main/java/com/meterware/xml/XmlSemantics.java:251-257 | one group is the layout of its elements' lines |
| Serializer.SpacesIndent | src/main/java/com/meterware/xml/XmlSemantics.java:256 | the prefix grows by three blanks per level |
| Serializer.GenerateIsLayout | src/main/java/com/meterware/xml/XmlSemantics.java:226-230 | a document is the header line followed by the lines of the root at no indentation |
| Serializer.LinesNest | src/main/java/com/meterware/xml/XmlSemantics.java:233-265 | each line of an element is indented three blanks per open element and its tags close what they open |
| Serializer.GroupsNest | src/main/java/com/meterware/xml/XmlSemantics.java:249-258 | the same for the nested groups |
| Serializer.GroupNest | src/main/java/com/meterware/xml/XmlSemantics.java:251-257 | the same for one group |
| Serializer.DocumentBalanced | src/main/java/com/meterware/xml/XmlSemantics.java:226-230 | the generated body opens and closes its tags in balance, with correct indentation |
| Serializer.SelfClosing | src/main/java/com/meterware/xml/XmlSemantics.java:243-263 | without contents, an element closes itself with `/>` exactly when nothing is nested; with contents it is one text line |
| Serializer.MissingPropertyExample | src/main/java/com/meterware/xml/XmlSemantics.java:237-238 | an explicit attribute whose property is missing is written `''`; a non-explicit one is not written |
| Serializer.EntryLine | src/main/java/com/meterware/xml/XmlSemantics.java:243-246 | `<entry>x</entry>` on one line at the prefix |
| Serializer.ListBody | src/main/java/com/meterware/xml/XmlSemantics.java:249-257 | the nested entry is written three blanks deeper |
| Serializer.NestedExample | src/main/java/com/meterware/xml/XmlSemantics.java:226-262 | a list with one entry: header, `<list>`, the entry indented, `</list>` |
| Serializer.UnreadableExample | src/main/java/com/meterware/xml/XmlSemantics.java:273 | an explicit attribute whose property has no read method makes writing fail |

## Left out

- `parseDocument` (both overloads) is not modelled: parser and file I/O. The model starts from a `Node` tree.
- Introspection and reflection are not modelled: `Introspector`, `getMethod` and `invoke` become the `Schema`. The `SecurityException` branch and its stack trace, the stack traces printed by `build` (XmlSemantics.java:68) and `getStringProperty` (XmlSemantics.java:277), and the error wrapping and messages of `build`, are left out. Failures are `Error` values.
- `Binder.Target.Create`: a create method is modelled as making a new, empty object of the class the schema names and keeping it in the parent's list of created objects, as `createColor` does. Create methods that return null, or an object that already exists, are not modelled.
- `Names.Upper`: `Character.toUpperCase` is modelled for ASCII letters only. `Properties.ParseInt` accepts ASCII digits only, whereas `Integer` also accepts other Unicode digits.
- The date parse and the date format are parameters. The calendar checks of the first test (year, month and day of `when`) are therefore stated for whatever date the parse returns.
- `Serializer.AppendElement`: after a failure the contract says nothing about the buffer's text. In the source the exception discards the buffer.
- `Serializer.AppendAttributes`: says nothing about the buffer after a failure, for the same reason.
- `Serializer.AppendNested`: says nothing about the buffer after a failure, for the same reason.
- `Serializer.AppendGroup`: says nothing about the buffer after a failure, for the same reason.
- The accessors of `WriteableXMLElement` (`getAttributeNames`, `isExplicitAttribute`, `getContents`, `getNestedElementNames`, `getNestedElements`) and bean read methods are treated as side-effect-free. Their results are fields of `WElement`.
- Attribute values are written without escaping, as in the source. Values of other types are written through their `toString` text (`ObjectValue`).
