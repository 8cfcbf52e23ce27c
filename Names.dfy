/**
 * The naming convention shared by the binder and the serializer: an XML name such as
 * `value-recorded` is turned into the bean property name `valueRecorded`, and an element
 * name such as `color` into the name of the factory method `createColor`.
 */
module Names {
  import opened Wrappers

  /** Character.toUpperCase restricted to ASCII: `a`-`z` become `A`-`Z`, every other
      character (the hyphen included) is left as it is. */
  function Upper(c: char): char {
    if 'a' <= c <= 'z' then (c as int - 'a' as int + 'A' as int) as char else c
  }

  /** String.indexOf for one character: the first position of `c` in `s`, or -1. */
  function IndexOf(s: string, c: char): (r: int)
    ensures r == -1 <==> c !in s
    ensures r >= 0 ==> r < |s| && s[r] == c && c !in s[..r]
  {
    if |s| == 0 then -1
    else if s[0] == c then 0
    else
      var k := IndexOf(s[1..], c);
      if k < 0 then -1 else k + 1
  }

  /** The number of hyphens in `s`. */
  function Hyphens(s: string): nat {
    if s == [] then 0 else (if s[0] == '-' then 1 else 0) + Hyphens(s[1..])
  }

  /** `p` followed by the text in `o`, if there is one. */
  function Prepend(p: string, o: Option<string>): Option<string> {
    match o
    case None => None
    case Some(t) => Some(p + t)
  }

  /**
   * Reference definition of the hyphen convention, read left to right: every hyphen is
   * dropped and the first non-hyphen character after a run of hyphens is upper-cased.
   * `capitalise` says that a hyphen has just been dropped; a name that ends while it is
   * set has no character left to upper-case, which is a failure.
   */
  function Camel(s: string, capitalise: bool): (r: Option<string>)
    ensures r.Some? ==> '-' !in r.value && |r.value| <= |s|
    decreases |s|
  {
    if s == [] then (if capitalise then None else Some([]))
    else if s[0] == '-' then Camel(s[1..], true)
    else Prepend([if capitalise then Upper(s[0]) else s[0]], Camel(s[1..], false))
  }

  /**
   * The property name `toPropertyName` computes for an XML attribute or element name:
   * a name that starts with a hyphen is returned unchanged, any other name is rewritten
   * by `Camel`. None stands for the StringIndexOutOfBoundsException thrown for a
   * trailing hyphen.
   */
  function PropertyName(name: string): (r: Option<string>)
    ensures r.Some? ==> |r.value| <= |name|
    ensures r.Some? && (|name| == 0 || name[0] != '-') ==> '-' !in r.value
  {
    if |name| > 0 && name[0] == '-' then Some(name) else Camel(name, false)
  }

  /** toPropertyName: one pass of the loop per hyphen, each removing the first hyphen
      and upper-casing the character after it. */
  method ToPropertyName(attributeName: string) returns (r: Option<string>)
    ensures r == PropertyName(attributeName)
  {
    if IndexOf(attributeName, '-') < 0 {
      CamelOfPlainName(attributeName);
      return Some(attributeName);
    }
    var name := attributeName;
    var index := IndexOf(name, '-');
    while index > 0
      invariant |name| > 0 && name[0] == attributeName[0]
      invariant index == IndexOf(name, '-')
      invariant attributeName[0] == '-' ==> name == attributeName
      invariant attributeName[0] != '-' ==> Camel(name, false) == Camel(attributeName, false)
      decreases |name|
    {
      if index + 1 >= |name| {
        // charAt(index + 1) is out of bounds: the name ends with a hyphen
        CamelPrefix(name[..index], ['-']);
        assert name == name[..index] + ['-'];
        return None;
      }
      CamelPass(name, index);
      name := name[..index] + [Upper(name[index + 1])] + name[index + 2..];
      index := IndexOf(name, '-');
    }
    if index < 0 {
      CamelOfPlainName(name);
    }
    return Some(name);
  }

  /**
   * getCreateMethodName: "create", the normalised name's first character upper-cased,
   * then the rest of the normalised name. None when the name cannot be normalised or is
   * empty (charAt(0) out of bounds).
   */
  function CreateMethodName(nodeName: string): (r: Option<string>)
    ensures r.Some? <==> |nodeName| > 0 && PropertyName(nodeName).Some?
    ensures r.Some? ==> |r.value| > 6 && r.value[..6] == "create"
  {
    match PropertyName(nodeName)
    case None => None
    case Some(p) =>
      PropertyNameLength(nodeName);
      if p == [] then None else Some("create" + [Upper(p[0])] + p[1..])
  }

  // ---------------------------------------------------------------------------------
  // Lemmas about the reference definition

  /** A hyphen-free prefix is copied unchanged. */
  lemma {:induction false} CamelPrefix(p: string, t: string)
    requires '-' !in p
    ensures Camel(p + t, false) == Prepend(p, Camel(t, false))
  {
    if p != [] {
      assert (p + t)[0] == p[0] && (p + t)[1..] == p[1..] + t;
      CamelPrefix(p[1..], t);
      match Camel(t, false) {
        case None =>
        case Some(x) => assert [p[0]] + (p[1..] + x) == p + x;
      }
    } else {
      assert p + t == t;
      match Camel(t, false) {
        case None =>
        case Some(x) => assert p + x == x;
      }
    }
  }

  /** A name without hyphens is its own camel-case form. */
  lemma CamelOfPlainName(s: string)
    requires '-' !in s
    ensures Camel(s, false) == Some(s)
  {
    CamelPrefix(s, []);
    assert s + [] == s;
  }

  /** A hyphen followed by `c` reads like `c` upper-cased. */
  lemma CamelStep(c: char, rest: string)
    ensures Camel(['-', c] + rest, false) == Camel([Upper(c)] + rest, false)
  {
    assert (['-', c] + rest)[1..] == [c] + rest;
    assert ([c] + rest)[1..] == rest;
    assert ([Upper(c)] + rest)[1..] == rest;
  }

  /** Dropping one hyphen and upper-casing the next character does not change the
      camel-case form: this is why the loop of `ToPropertyName` computes `Camel`. */
  lemma CamelPass(s: string, i: int)
    requires 0 <= i && i + 1 < |s| && s[i] == '-' && '-' !in s[..i]
    ensures Camel(s[..i] + [Upper(s[i + 1])] + s[i + 2..], false) == Camel(s, false)
  {
    var p, c, rest := s[..i], s[i + 1], s[i + 2..];
    calc {
      Camel(s, false);
      { assert s[i..] == ['-', c] + rest;
        assert s == p + s[i..]; }
      Camel(p + (['-', c] + rest), false);
      { CamelPrefix(p, ['-', c] + rest); }
      Prepend(p, Camel(['-', c] + rest, false));
      { CamelStep(c, rest); }
      Prepend(p, Camel([Upper(c)] + rest, false));
      { CamelPrefix(p, [Upper(c)] + rest); }
      Camel(p + ([Upper(c)] + rest), false);
      { assert p + [Upper(c)] + rest == p + ([Upper(c)] + rest); }
      Camel(p + [Upper(c)] + rest, false);
    }
  }

  /** The reference definition fails exactly on a name that ends in a hyphen (or on the
      empty rest of a name whose last hyphen has just been dropped). */
  lemma {:induction false} CamelFails(s: string, capitalise: bool)
    ensures Camel(s, capitalise).None? <==> (if s == [] then capitalise else s[|s| - 1] == '-')
  {
    if s != [] {
      CamelFails(s[1..], s[0] == '-');
      if s[0] != '-' {
        CamelFails(s[1..], false);
      }
    }
  }

  /** A successful rewrite has no hyphen left, and is shorter by the number of hyphens. */
  lemma {:induction false} CamelRemovesHyphens(s: string, capitalise: bool)
    requires Camel(s, capitalise).Some?
    ensures '-' !in Camel(s, capitalise).value
    ensures |Camel(s, capitalise).value| == |s| - Hyphens(s)
  {
    if s != [] {
      if s[0] == '-' {
        CamelRemovesHyphens(s[1..], true);
      } else {
        CamelRemovesHyphens(s[1..], false);
      }
    }
  }

  // ---------------------------------------------------------------------------------
  // Properties of toPropertyName

  /** A name without hyphens is returned unchanged. */
  lemma PropertyNameOfPlainName(name: string)
    requires '-' !in name
    ensures PropertyName(name) == Some(name)
  {
    CamelOfPlainName(name);
  }

  /** The normalisation fails exactly for a name that does not start with a hyphen but ends
      with one (the loop reaches the trailing hyphen and reads past the end). */
  lemma PropertyNameFails(name: string)
    ensures PropertyName(name).None? <==> |name| > 0 && name[0] != '-' && name[|name| - 1] == '-'
  {
    CamelFails(name, false);
  }

  /** Unless the name starts with a hyphen, the result has no hyphen, and each removed hyphen
      shortens it by one. */
  lemma PropertyNameRemovesHyphens(name: string)
    requires PropertyName(name).Some?
    requires |name| == 0 || name[0] != '-'
    ensures '-' !in PropertyName(name).value
    ensures |PropertyName(name).value| == |name| - Hyphens(name)
  {
    CamelRemovesHyphens(name, false);
  }

  /** The normalised name is empty exactly when the name is. */
  lemma PropertyNameLength(name: string)
    requires PropertyName(name).Some?
    ensures |PropertyName(name).value| == 0 <==> |name| == 0
  {
    if |name| > 0 && name[0] != '-' {
      CamelRemovesHyphens(name, false);
      HyphensBelowLength(name);
    }
  }

  lemma {:induction false} HyphensBelowLength(s: string)
    ensures Hyphens(s) <= |s|
    ensures |s| > 0 && s[0] != '-' ==> Hyphens(s) < |s|
  {
    if s != [] {
      HyphensBelowLength(s[1..]);
    }
  }

  /** Normalising an already normalised name changes nothing (the binder normalises attribute
      names twice: once when reading the attribute and again when looking up the property). */
  lemma PropertyNameIdempotent(name: string)
    requires PropertyName(name).Some?
    ensures PropertyName(PropertyName(name).value) == PropertyName(name)
  {
    if |name| == 0 || name[0] != '-' {
      PropertyNameRemovesHyphens(name);
      PropertyNameOfPlainName(PropertyName(name).value);
    }
  }

  /** A hyphenated element name and its camel-case form look for the same create method. */
  lemma CreateMethodNameOfNormalised(nodeName: string)
    requires PropertyName(nodeName).Some?
    ensures CreateMethodName(PropertyName(nodeName).value) == CreateMethodName(nodeName)
  {
    PropertyNameIdempotent(nodeName);
  }

  /** A name with one hyphen inside it loses the hyphen and has the character after it
      upper-cased. */
  lemma OneHyphen(head: string, c: char, tail: string)
    requires |head| > 0 && '-' !in head && c != '-' && '-' !in tail
    ensures PropertyName(head + ['-', c] + tail) == Some(head + [Upper(c)] + tail)
  {
    assert head + ['-', c] + tail == head + (['-', c] + tail);
    assert (head + ['-', c] + tail)[0] == head[0];
    CamelPrefix(head, ['-', c] + tail);
    CamelStep(c, tail);
    assert '-' !in [Upper(c)] + tail by {
      assert Upper(c) != '-';
    }
    CamelOfPlainName([Upper(c)] + tail);
    assert head + ([Upper(c)] + tail) == head + [Upper(c)] + tail;
  }

  /** `value-recorded` becomes `valueRecorded`. */
  lemma HyphenatedExample()
    ensures PropertyName("value-recorded") == Some("valueRecorded")
  {
    OneHyphen("value", 'r', "ecorded");
    assert "value" + ['-', 'r'] + "ecorded" == "value-recorded";
    assert "value" + [Upper('r')] + "ecorded" == "valueRecorded";
  }

  /** A doubled hyphen takes two passes and leaves one upper-cased character. */
  lemma DoubledHyphenExample()
    ensures PropertyName("a--b") == Some("aB")
  {
    CamelPass("a--b", 1);
    assert "a--b"[..1] + [Upper("a--b"[2])] + "a--b"[3..] == "a-b";
    CamelPass("a-b", 1);
    assert "a-b"[..1] + [Upper("a-b"[2])] + "a-b"[3..] == "aB";
    CamelOfPlainName("aB");
  }

  /** A leading hyphen stops the rewriting; a trailing one is a failure. */
  lemma EdgeHyphenExamples()
    ensures PropertyName("-a-b") == Some("-a-b")
    ensures PropertyName("a-b-") == None
  {
    PropertyNameFails("a-b-");
  }

  /** The element `color` is created by `createColor`. */
  lemma CreateColorExample()
    ensures CreateMethodName("color") == Some("createColor")
  {
    PropertyNameOfPlainName("color");
    assert Upper('c') == 'C';
    assert "create" + [Upper("color"[0])] + "color"[1..] == "createColor";
  }
}
