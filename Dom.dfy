/**
 * The parsed document as the binder sees it, and the two read-only questions the binder
 * asks of it: which node is the root, and what text an element holds.
 */
module Dom {
  import opened Wrappers

  /** An attribute of an element; an element lists them in the order of the DOM's
      attribute map, which the binder follows. */
  datatype Attr = Attr(name: string, value: string)

  /** A DOM node. `Other` stands for every node kind the binder does not read itself
      (comments, processing instructions, entity references, document types). */
  datatype Node =
    | Element(name: string, attributes: seq<Attr>, children: seq<Node>)
    | Text(text: string)
    | CData(text: string)
    | Other

  /** The position of the first element among `nodes`, or |nodes| when there is none. */
  function FirstElement(nodes: seq<Node>): (i: nat)
    ensures i <= |nodes|
    ensures forall j :: 0 <= j < i ==> !nodes[j].Element?
    ensures i < |nodes| ==> nodes[i].Element?
  {
    if nodes == [] || nodes[0].Element? then 0
    else
      var i := FirstElement(nodes[1..]);
      assert forall j :: 1 <= j < i + 1 ==> nodes[j] == nodes[1..][j - 1];
      i + 1
  }

  /** getRootNode: the first element among the top-level nodes of the document;
      None is the "Document has no root node" failure. */
  function RootNode(document: seq<Node>): (r: Option<Node>)
    ensures r.None? <==> forall i :: 0 <= i < |document| ==> !document[i].Element?
    ensures r.Some? ==> r.value.Element? &&
                        exists i :: (0 <= i < |document| && document[i] == r.value &&
                                     forall j :: 0 <= j < i ==> !document[j].Element?)
  {
    var i := FirstElement(document);
    if i < |document| then Some(document[i]) else None
  }

  /** The characters String.trim removes: everything up to and including U+0020. */
  predicate Blank(c: char) {
    c <= ' '
  }

  /** The number of blank characters at the start of `s`. */
  function LeadingBlanks(s: string): (n: nat)
    ensures n <= |s|
    ensures forall k :: 0 <= k < n ==> Blank(s[k])
    ensures n < |s| ==> !Blank(s[n])
  {
    if s == [] || !Blank(s[0]) then 0
    else
      var n := LeadingBlanks(s[1..]);
      assert forall k :: 1 <= k < n + 1 ==> s[k] == s[1..][k - 1];
      n + 1
  }

  /** The length of `s` without its trailing blank characters. */
  function WithoutTrailingBlanks(s: string): (n: nat)
    ensures n <= |s|
    ensures forall k :: n <= k < |s| ==> Blank(s[k])
    ensures n > 0 ==> !Blank(s[n - 1])
  {
    if s == [] || !Blank(s[|s| - 1]) then |s|
    else WithoutTrailingBlanks(s[..|s| - 1])
  }

  /** `r` is the slice of `s` left once some blank characters are cut from either end. */
  predicate CutFrom(s: string, r: string) {
    exists i, j :: 0 <= i <= j <= |s| && r == s[i..j] && Margins(s, i, j)
  }

  /** Everything of `s` before `i` and from `j` on is blank. */
  predicate Margins(s: string, i: nat, j: nat)
    requires i <= j <= |s|
  {
    (forall k :: 0 <= k < i ==> Blank(s[k])) && (forall k :: j <= k < |s| ==> Blank(s[k]))
  }

  /** String.trim: `s` without its leading and trailing blank characters. */
  function Trim(s: string): (r: string)
    ensures CutFrom(s, r)
    ensures r == [] || (!Blank(r[0]) && !Blank(r[|r| - 1]))
    ensures |s| > 0 && !Blank(s[0]) && !Blank(s[|s| - 1]) ==> r == s
    ensures (forall k :: 0 <= k < |s| ==> Blank(s[k])) ==> r == []
  {
    var i, j := LeadingBlanks(s), WithoutTrailingBlanks(s);
    if i < j then s[i..j]
    else
      assert [] == s[j..j] && Margins(s, j, j);
      []
  }

  /** Trimming a text that is blank outside `s[from..to]` and has non-blank characters at both
      ends of that slice gives exactly the slice. */
  lemma TrimBetween(s: string, from: nat, to: nat)
    requires from < to <= |s| && Margins(s, from, to)
    requires !Blank(s[from]) && !Blank(s[to - 1])
    ensures Trim(s) == s[from..to]
  {
    var i, j := LeadingBlanks(s), WithoutTrailingBlanks(s);
    assert i <= from;
    assert i >= from by {
      assert forall k :: 0 <= k < from ==> Blank(s[k]);
    }
    assert j >= to;
    assert j <= to by {
      assert forall k :: to <= k < |s| ==> Blank(s[k]);
    }
    assert i < j;
    assert Trim(s) == s[i..j];
  }

  /** Text and CDATA children: the ones whose characters count as the element's contents. */
  predicate Textual(n: Node) {
    n.Text? || n.CData?
  }

  /**
   * The text setContentsAsProperty assigns for an element with these children: the
   * children in order, plain text trimmed and CDATA kept verbatim, up to the first child
   * of any other kind; nothing after that child counts.
   */
  function Contents(children: seq<Node>): string {
    if children == [] then ""
    else match children[0]
      case Text(t) => Trim(t) + Contents(children[1..])
      case CData(t) => t + Contents(children[1..])
      case _ => ""
  }

  /** The loop of setContentsAsProperty that builds the text, stopping at the first child
      that is neither text nor CDATA. */
  method CollectContents(propertyNode: Node) returns (text: string)
    requires propertyNode.Element?
    ensures text == Contents(propertyNode.children)
  {
    var children := propertyNode.children;
    text := "";
    var haveAllContents := false;
    var i := 0;
    while i < |children| && !haveAllContents
      invariant 0 <= i <= |children|
      invariant haveAllContents ==> text == Contents(children)
      invariant !haveAllContents ==> text + Contents(children[i..]) == Contents(children)
      decreases |children| - i
    {
      ghost var rest := Contents(children[i + 1..]);
      assert children[i..][1..] == children[i + 1..];
      match children[i] {
        case Text(t) =>
          assert Contents(children[i..]) == Trim(t) + rest;
          assert text + Trim(t) + rest == text + (Trim(t) + rest);
          text := text + Trim(t);
        case CData(t) =>
          assert Contents(children[i..]) == t + rest;
          assert text + t + rest == text + (t + rest);
          text := text + t;
        case _ =>
          assert Contents(children[i..]) == "";
          assert text + "" == text;
          haveAllContents := true;
      }
      i := i + 1;
    }
    if !haveAllContents {
      assert children[i..] == [];
    }
  }

  /** Text children before the first non-text child contribute in order. */
  lemma {:induction false} ContentsOfTextualPrefix(prefix: seq<Node>, rest: seq<Node>)
    requires forall k :: 0 <= k < |prefix| ==> Textual(prefix[k])
    ensures Contents(prefix + rest) == Contents(prefix) + Contents(rest)
  {
    if prefix != [] {
      assert (prefix + rest)[1..] == prefix[1..] + rest;
      ContentsOfTextualPrefix(prefix[1..], rest);
    } else {
      assert prefix + rest == rest;
    }
  }

  /** Whatever follows the first child that is neither text nor CDATA is ignored. */
  lemma ContentsStopAtFirstOther(prefix: seq<Node>, stop: Node, rest: seq<Node>)
    requires forall k :: 0 <= k < |prefix| ==> Textual(prefix[k])
    requires !Textual(stop)
    ensures Contents(prefix + [stop] + rest) == Contents(prefix)
  {
    assert prefix + [stop] + rest == prefix + ([stop] + rest);
    ContentsOfTextualPrefix(prefix, [stop] + rest);
    assert Contents([stop] + rest) == "";
  }

  /** A single text child without blanks at its ends is the contents as it stands. */
  lemma ContentsOfPlainText(t: string)
    requires |t| > 0 && !Blank(t[0]) && !Blank(t[|t| - 1])
    ensures Contents([Text(t)]) == t
  {
    assert [Text(t)][1..] == [];
  }

  /** The CDATA section of the example keeps its leading blank; a plain text node loses its
      surrounding blanks. */
  lemma ContentsExamples()
    ensures Contents([CData(" a phrase")]) == " a phrase"
    ensures Contents([Text("  aValue "), Other, CData("ignored")]) == "aValue"
  {
    assert [CData(" a phrase")][1..] == [];
    var padded := "  aValue ";
    assert [Text(padded), Other, CData("ignored")] == [Text(padded)] + [Other] + [CData("ignored")];
    ContentsStopAtFirstOther([Text(padded)], Other, [CData("ignored")]);
    assert Contents([Text(padded)]) == Trim(padded) by {
      assert [Text(padded)][1..] == [];
    }
    TrimBetween(padded, 2, 8);
    assert padded[2..8] == "aValue" by {
      assert forall k :: 0 <= k < 6 ==> padded[2..8][k] == padded[k + 2];
    }
  }
}
