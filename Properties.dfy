/**
 * Bean properties as the binder and the serializer use them: the descriptor a class
 * publishes for each property, the lookup of a descriptor by name, the conversion of an
 * XML string to the property's declared type, and the text a property value prints as.
 */
module Properties {
  import opened Wrappers

  /** java.util.Date: a count of milliseconds since the epoch. */
  datatype Date = Date(millis: int)

  /** The two date conversions the source takes from the Java library: the deprecated
      `new Date(String)` parse (None is its IllegalArgumentException) and the formatting
      with the shared "d-MMM-yyyy" format. */
  datatype DateCodec = DateCodec(parse: string -> Option<Date>, format: Date -> string)

  /** The declared type of a bean property; the binder converts to the first four, and
      `OtherKind` carries the name of any other type. */
  datatype Kind = StringKind | IntKind | BoolKind | DateKind | OtherKind(typeName: string)

  /** A property value. `ObjectValue` is any other object, known only by its toString text. */
  datatype Value =
    | StrValue(s: string)
    | IntValue(i: int)
    | BoolValue(b: bool)
    | DateValue(d: Date)
    | ObjectValue(text: string)

  /** The range of a Java `int`. */
  const MinInt: int := -0x8000_0000
  const MaxInt: int := 0x7fff_ffff

  /** `v` is a value a property of declared type `k` can hold. */
  predicate HasKind(v: Value, k: Kind) {
    match v
    case StrValue(_) => k == StringKind
    case IntValue(i) => k == IntKind && MinInt <= i <= MaxInt
    case BoolValue(_) => k == BoolKind
    case DateValue(_) => k == DateKind
    case ObjectValue(_) => k.OtherKind?
  }

  /** A PropertyDescriptor: the property's name and type, and whether the class has a
      write method and a read method for it. */
  datatype Descriptor = Descriptor(name: string, kind: Kind, writable: bool, readable: bool)

  /** Why binding or serializing fails. */
  datatype Error =
    | MalformedName(name: string)     // a name ending in a hyphen, or an empty element name
    | NotANumber(text: string)        // NumberFormatException from the int conversion
    | NotADate(text: string)          // IllegalArgumentException from the date parse
    | Unsupported(typeName: string)   // "<type> attributes not supported"
    | NoRootNode                      // "Document has no root node"
    | NoReadMethod(property: string)  // a property read without a read method

  // ---------------------------------------------------------------------------------
  // getProperty

  /** The position of the first descriptor called `name`, or |properties|. */
  function PropertyIndex(properties: seq<Descriptor>, name: string): (i: nat)
    ensures i <= |properties|
    ensures forall j :: 0 <= j < i ==> properties[j].name != name
    ensures i < |properties| ==> properties[i].name == name
  {
    if properties == [] || properties[0].name == name then 0
    else
      var i := PropertyIndex(properties[1..], name);
      assert forall j :: 1 <= j < i + 1 ==> properties[j] == properties[1..][j - 1];
      i + 1
  }

  /** getProperty: the first descriptor whose name equals `name` exactly, or None. */
  function FindProperty(properties: seq<Descriptor>, name: string): (r: Option<Descriptor>)
    ensures r.None? <==> forall i :: 0 <= i < |properties| ==> properties[i].name != name
    ensures r.Some? ==> r.value.name == name &&
                        exists i :: (0 <= i < |properties| && properties[i] == r.value &&
                                     forall j :: 0 <= j < i ==> properties[j].name != name)
  {
    var i := PropertyIndex(properties, name);
    if i < |properties| then Some(properties[i]) else None
  }

  // ---------------------------------------------------------------------------------
  // Decimal integers, as Integer(String) reads them and Integer.toString writes them

  predicate IsDigit(c: char) {
    '0' <= c <= '9'
  }

  predicate AllDigits(s: string) {
    forall k :: 0 <= k < |s| ==> IsDigit(s[k])
  }

  /** The number a string of decimal digits denotes. */
  function DigitsValue(ds: string): nat
    requires AllDigits(ds)
  {
    if ds == [] then 0
    else DigitsValue(ds[..|ds| - 1]) * 10 + (ds[|ds| - 1] as int - '0' as int)
  }

  /** The decimal digits of `n`, without leading zeros. */
  function Digits(n: nat): (ds: string)
    ensures |ds| > 0 && AllDigits(ds)
  {
    var last := ['0' + (n % 10) as char];
    if n < 10 then last else Digits(n / 10) + last
  }

  /** Integer(String): an optional sign, then one or more decimal digits, denoting a value
      in the range of an `int`; None is the NumberFormatException. */
  function ParseInt(s: string): (r: Option<int>)
    ensures r.Some? ==> MinInt <= r.value <= MaxInt
  {
    if s == [] then None
    else
      var digits := if s[0] == '-' || s[0] == '+' then s[1..] else s;
      if digits == [] || !AllDigits(digits) then None
      else
        var v: int := if s[0] == '-' then -(DigitsValue(digits) as int) else DigitsValue(digits);
        if MinInt <= v <= MaxInt then Some(v) else None
  }

  /** Integer.toString. */
  function IntToString(i: int): string {
    if i < 0 then "-" + Digits(-i) else Digits(i)
  }

  /** Reading back the digits of a number gives the number. */
  lemma {:induction false} DigitsValueOfDigits(n: nat)
    ensures DigitsValue(Digits(n)) == n
  {
    var ds := Digits(n);
    if n >= 10 {
      DigitsValueOfDigits(n / 10);
      assert ds[..|ds| - 1] == Digits(n / 10);
    }
  }

  /** Every `int` survives being written and read back. */
  lemma ParseIntOfIntToString(i: int)
    ensures MinInt <= i <= MaxInt ==> ParseInt(IntToString(i)) == Some(i)
  {
    var s := IntToString(i);
    if i < 0 {
      DigitsValueOfDigits(-i);
      assert s[1..] == Digits(-i);
    } else {
      DigitsValueOfDigits(i);
    }
  }

  /** The conversion of the example value `2`. */
  lemma ParseIntExample()
    ensures ParseInt("2") == Some(2)
  {
    ParseIntOfIntToString(2);
    assert IntToString(2) == "2";
  }

  /** A lone sign and a trailing letter are not numbers. */
  lemma ParseIntRefusesMalformed()
    ensures ParseInt("-") == None
    ensures ParseInt("2a") == None
  {
    assert !IsDigit("2a"[1]);
  }

  /** The digits of a number above the largest `int` are refused, with or without a sign. */
  lemma ParseIntRefusesOverflow(n: nat)
    requires n > MaxInt
    ensures ParseInt(Digits(n)) == None
    ensures ParseInt("+" + Digits(n)) == None
  {
    DigitsValueOfDigits(n);
    var ds := Digits(n);
    assert IsDigit(ds[0]);
    assert ("+" + ds)[1..] == ds;
  }

  // ---------------------------------------------------------------------------------
  // Booleans, as Boolean.valueOf reads them and Boolean.toString writes them

  /** Character.toLowerCase restricted to ASCII. */
  function Lower(c: char): char {
    if 'A' <= c <= 'Z' then (c as int - 'A' as int + 'a' as int) as char else c
  }

  /** String.equalsIgnoreCase. */
  predicate EqualsIgnoreCase(a: string, b: string) {
    |a| == |b| && forall k :: 0 <= k < |a| ==> Lower(a[k]) == Lower(b[k])
  }

  /** Boolean.valueOf: true exactly for "true" in any mix of cases, false for every other
      string. */
  function ParseBool(s: string): (r: bool)
    ensures r ==> |s| == 4 && Lower(s[0]) == 't' && Lower(s[3]) == 'e'
  {
    EqualsIgnoreCase(s, "true")
  }

  /** Boolean.toString. */
  function BoolToString(b: bool): string {
    if b then "true" else "false"
  }

  /** The case of the letters does not matter, and nothing but the four letters counts. */
  lemma ParseBoolExamples()
    ensures ParseBool("true") && ParseBool("TRUE") && ParseBool("True")
    ensures !ParseBool("false") && !ParseBool("yes") && !ParseBool("") && !ParseBool("true ")
  {
    assert Lower("false"[0]) != Lower("true"[0]);
    assert Lower("yes"[0]) != Lower("true"[0]);
  }

  /** Every boolean survives being written and read back. */
  lemma ParseBoolOfBoolToString(b: bool)
    ensures ParseBool(BoolToString(b)) == b
  {
    if !b {
      assert |BoolToString(b)| != |"true"|;
    }
  }

  // ---------------------------------------------------------------------------------
  // toPropertyArgumentArray and the toString side of getStringProperty

  /**
   * toPropertyArgumentArray: the XML text converted to the property's declared type.
   * Text is taken as it is, an int is parsed, a boolean is true only for "true" in any
   * case, a date goes through the date parse; any other type is a fatal error rather
   * than a skip.
   */
  function Coerce(dates: DateCodec, kind: Kind, text: string): (r: Result<Value, Error>)
    ensures r.Success? ==> HasKind(r.value, kind)
    ensures r.Failure? <==> kind.OtherKind? || (kind == IntKind && ParseInt(text).None?)
                            || (kind == DateKind && dates.parse(text).None?)
    ensures kind.OtherKind? ==> r == Failure(Unsupported(kind.typeName))
  {
    match kind
    case StringKind => Success(StrValue(text))
    case IntKind =>
      (match ParseInt(text)
       case Some(i) => Success(IntValue(i))
       case None => Failure(NotANumber(text)))
    case DateKind =>
      (match dates.parse(text)
       case Some(d) => Success(DateValue(d))
       case None => Failure(NotADate(text)))
    case BoolKind => Success(BoolValue(ParseBool(text)))
    case OtherKind(typeName) => Failure(Unsupported(typeName))
  }

  /** The text of a property value: a date through the date format, anything else through
      its toString. */
  function ValueText(dates: DateCodec, v: Value): (r: string)
    ensures v.IntValue? && MinInt <= v.i <= MaxInt ==> ParseInt(r) == Some(v.i)
    ensures v.BoolValue? ==> ParseBool(r) == v.b
  {
    match v
    case StrValue(s) => s
    case IntValue(i) => ParseIntOfIntToString(i); IntToString(i)
    case BoolValue(b) => ParseBoolOfBoolToString(b); BoolToString(b)
    case DateValue(d) => dates.format(d)
    case ObjectValue(t) => t
  }

  /** A value of a supported type that is written out as text and bound again comes back
      unchanged (for a date, when the date format and the date parse agree). */
  lemma CoerceOfValueText(dates: DateCodec, v: Value, kind: Kind)
    requires HasKind(v, kind) && !kind.OtherKind?
    requires v.DateValue? ==> dates.parse(dates.format(v.d)) == Some(v.d)
    ensures Coerce(dates, kind, ValueText(dates, v)) == Success(v)
  {
    match v
    case IntValue(i) => ParseIntOfIntToString(i);
    case BoolValue(b) => ParseBoolOfBoolToString(b);
    case _ =>
  }
}
