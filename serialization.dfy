/** The format-independent core of serialization (nineml/serialization/base.py):
    version strings and their comparison, the decision whether an object is
    written as a reference, the lookup of single children, the bookkeeping of
    which attributes, children and bodies a node has consumed, and the index
    of document-level elements built when a document is opened.  Serial
    elements are modelled as a tree of attributes, tagged children and an
    optional body; the format adapters that produce them are not part of
    this model. */
module Serialization {
  import opened Wrappers
  import opened Strings

  // ---------------------------------------------------------------------
  // Version strings

  /** What `standardize_version` may be given: text (a float is given by its
      decimal text), an integer, an already split tuple or list, or anything
      else. */
  datatype VersionArgument =
    | VersionText(text: string)
    | VersionInt(n: int)
    | VersionParts(parts: seq<int>)
    | OtherVersion

  /** The number of decimal digits `s` starts with. */
  function LeadingDigits(s: string): (k: nat)
    ensures k <= |s| && AllDigits(s[..k])
    ensures k < |s| ==> !IsDigit(s[k])
  {
    if s == [] || !IsDigit(s[0]) then 0
    else
      var k := 1 + LeadingDigits(s[1..]);
      assert s[..k] == [s[0]] + s[1..][..k - 1];
      k
  }

  /** A digit string followed by something that is not a digit. */
  lemma {:induction false} LeadingDigitsOf(a: string, b: string)
    requires AllDigits(a)
    requires b == [] || !IsDigit(b[0])
    ensures LeadingDigits(a + b) == |a|
  {
    if a != [] {
      assert (a + b)[1..] == a[1..] + b;
      LeadingDigitsOf(a[1..], b);
    } else {
      assert a + b == b;
    }
  }

  /** Text that Python's `float` accepts and prints back in positional
      notation: digits with at most one '.', and at least one digit. */
  predicate IsPlainDecimal(s: string)
  {
    var k := LeadingDigits(s);
    (k == |s| && k > 0) || (k < |s| && s[k] == '.' && AllDigits(s[k + 1..]) && |s| > 1)
  }

  function StripLeadingZeros(s: string): (r: string)
    ensures AllDigits(s) ==> AllDigits(r)
    ensures r == [] || r[0] != '0'
  {
    if s != [] && s[0] == '0' then StripLeadingZeros(s[1..]) else s
  }

  function StripTrailingZeros(s: string): (r: string)
    ensures AllDigits(s) ==> AllDigits(r)
    ensures r == [] || r[|r| - 1] != '0'
  {
    if s != [] && s[|s| - 1] == '0' then StripTrailingZeros(s[..|s| - 1]) else s
  }

  /** `str(float(s))` for a plain decimal: the integer part without leading
      zeros and the fraction without trailing zeros, each at least "0".
      This is what Python 2 prints for a decimal of at most twelve
      significant digits between 1e-4 and 1e12; it does not round longer
      decimals or switch to exponent form outside that range. */
  function FloatStr(s: string): (r: string)
    requires IsPlainDecimal(s)
    ensures exists k :: 0 < k < |r| - 1 && r[k] == '.' && AllDigits(r[..k]) && AllDigits(r[k + 1..])
  {
    var k := LeadingDigits(s);
    var whole := StripLeadingZeros(s[..k]);
    var fraction := StripTrailingZeros(if k == |s| then "" else s[k + 1..]);
    var w := if whole == [] then "0" else whole;
    var f := if fraction == [] then "0" else fraction;
    var r := w + "." + f;
    assert r[..|w|] == w && r[|w| + 1..] == f;
    r
  }

  /** `version_re.match(text)` with `version_re = (\d+)\.(\d+)` and the two
      groups converted by `int`; no match is a `NineMLSerializationError`. */
  function VersionMatch(t: string): (r: Result<seq<int>>)
    ensures r.Err? ==> r.error == SerializationError
    ensures r.Ok? ==> |r.value| == 2 && r.value[0] >= 0 && r.value[1] >= 0
  {
    var k := LeadingDigits(t);
    if k == 0 || k == |t| || t[k] != '.' then Err(SerializationError)
    else
      var j := LeadingDigits(t[k + 1..]);
      if j == 0 then Err(SerializationError)
      else Ok([DecimalValue(t[..k]), DecimalValue(t[k + 1..][..j])])
  }

  /** The match takes the two digit runs around the '.'. */
  lemma {:induction false} VersionMatchParts(a: string, b: string)
    requires a != [] && b != [] && AllDigits(a) && AllDigits(b)
    ensures VersionMatch(a + "." + b) == Ok([DecimalValue(a), DecimalValue(b)])
  {
    var t := a + "." + b;
    assert LeadingDigits(t) == |a| && t[|a|] == '.' && t[..|a|] == a && t[|a| + 1..] == b by {
      assert t == a + ("." + b);
      LeadingDigitsOf(a, "." + b);
    }
    assert LeadingDigits(b) == |b| && b[..|b|] == b by {
      LeadingDigitsOf(b, []);
      assert b + [] == b;
    }
  }

  /** The match reads back both numbers of `str(M) + "." + str(m)`. */
  lemma {:induction false} VersionMatchDecimal(major: nat, minor: nat)
    ensures VersionMatch(Decimal(major) + "." + Decimal(minor)) == Ok([major, minor])
  {
    VersionMatchParts(Decimal(major), Decimal(minor));
    DecimalRoundTrip(major);
    DecimalRoundTrip(minor);
  }

  /** `standardize_version` as written: `float(version)` is tried first and,
      when it succeeds, the version is replaced by the printed float before
      the pattern is matched; tuples and lists are taken as they are, and
      anything else fails in `len`. */
  function StandardizeVersionAsWritten(v: VersionArgument): (r: Result<seq<int>>)
    ensures r.Err? ==> r.error == (if v.OtherVersion? then TypeError else SerializationError)
  {
    match v
    case VersionText(s) => VersionMatch(if IsPlainDecimal(s) then FloatStr(s) else s)
    case VersionInt(n) => VersionMatch(IntStr(n) + ".0")
    case VersionParts(parts) => Ok(parts)
    case OtherVersion => Err(TypeError)
  }

  /** `standardize_version` as evidently intended: text that already reads
      `M.m` keeps its own numbers, and only other text goes through
      `float`. */
  function StandardizeVersion(v: VersionArgument): (r: Result<seq<int>>)
    ensures r.Err? ==> r.error == (if v.OtherVersion? then TypeError else SerializationError)
    ensures v.VersionText? && VersionMatch(v.text).Ok? ==> r == VersionMatch(v.text)
    ensures !v.VersionText? || VersionMatch(v.text).Err? ==> r == StandardizeVersionAsWritten(v)
  {
    match v
    case VersionText(s) =>
      if VersionMatch(s).Ok? then VersionMatch(s) else StandardizeVersionAsWritten(v)
    case _ => StandardizeVersionAsWritten(v)
  }

  /** `version`: `'{}.{}'.format(*version)`, which needs two parts. */
  function Version(parts: seq<int>): (r: Result<string>)
    ensures r.Err? <==> |parts| < 2
    ensures r.Err? ==> r.error == IndexError
  {
    if |parts| < 2 then Err(IndexError) else Ok(IntStr(parts[0]) + "." + IntStr(parts[1]))
  }

  /** Printing a version and standardizing the text gives the version back. */
  lemma {:induction false} VersionRoundTrip(major: nat, minor: nat)
    ensures Version([major, minor]) == Ok(Decimal(major) + "." + Decimal(minor))
    ensures StandardizeVersion(VersionText(Version([major, minor]).value)) == Ok([major, minor])
  {
    VersionMatchDecimal(major, minor);
  }

  lemma {:induction false} StripLeadingZerosDecimal(n: nat)
    ensures (if StripLeadingZeros(Decimal(n)) == [] then "0" else StripLeadingZeros(Decimal(n))) == Decimal(n)
  {
    var s := Decimal(n);
    if s[0] == '0' {
      assert s == "0";
      assert StripLeadingZeros(s) == StripLeadingZeros(s[1..]);
      assert s[1..] == [];
    }
  }

  lemma {:induction false} StripTrailingZerosDecimal(n: nat)
    requires n == 0 || n % 10 != 0
    ensures (if StripTrailingZeros(Decimal(n)) == [] then "0" else StripTrailingZeros(Decimal(n))) == Decimal(n)
  {
    var s := Decimal(n);
    if n == 0 {
      assert s == "0";
      assert StripTrailingZeros(s) == StripTrailingZeros(s[..0]);
      assert s[..0] == [];
    } else {
      assert s[|s| - 1] == DigitChar(n % 10);
    }
  }

  /** `str(M) + "." + str(m)` is a plain decimal. */
  lemma {:induction false} DecimalVersionIsPlain(major: nat, minor: nat)
    ensures var t := Decimal(major) + "." + Decimal(minor);
            IsPlainDecimal(t) && LeadingDigits(t) == |Decimal(major)| &&
            t[..|Decimal(major)|] == Decimal(major) && t[|Decimal(major)| + 1..] == Decimal(minor)
  {
    var a, b := Decimal(major), Decimal(minor);
    var t := a + "." + b;
    LeadingDigitsOf(a, "." + b);
    assert t == a + ("." + b);
    assert t[..|a|] == a && t[|a| + 1..] == b;
  }

  /** Python prints such a float back as the same text when the minor
      number has no trailing zero and the two numbers have at most twelve
      digits together (so it is neither rounded nor printed with an
      exponent). */
  lemma {:induction false} FloatStrDecimal(major: nat, minor: nat)
    requires minor == 0 || minor % 10 != 0
    requires |Decimal(major)| + |Decimal(minor)| <= 12
    ensures var t := Decimal(major) + "." + Decimal(minor);
            IsPlainDecimal(t) && FloatStr(t) == t
  {
    DecimalVersionIsPlain(major, minor);
    StripLeadingZerosDecimal(major);
    StripTrailingZerosDecimal(minor);
  }

  /** As written, the round trip holds when the minor number has no trailing
      zero and the version has at most twelve digits. */
  lemma {:induction false} AsWrittenRoundTrip(major: nat, minor: nat)
    requires minor == 0 || minor % 10 != 0
    requires |Decimal(major)| + |Decimal(minor)| <= 12
    ensures StandardizeVersionAsWritten(VersionText(Decimal(major) + "." + Decimal(minor))) == Ok([major, minor])
  {
    var t := Decimal(major) + "." + Decimal(minor);
    FloatStrDecimal(major, minor);
    VersionMatchDecimal(major, minor);
  }

  /** `str(float("1.10"))` is "1.1". */
  lemma FloatStrOnePointTen()
    ensures IsPlainDecimal("1.10") && FloatStr("1.10") == "1.1"
  {
    var t := "1.10";
    assert LeadingDigits(t) == 1 by {
      LeadingDigitsOf("1", ".10");
      assert t == "1" + ".10";
    }
    assert t[..1] == "1" && t[2..] == "10";
    assert StripTrailingZeros("10") == "1" by {
      assert "10"[..1] == "1";
    }
    assert StripLeadingZeros("1") == "1";
  }

  /** `version` prints (1, 10) as "1.10", which reads back as (1, 10) once
      corrected. */
  lemma OnePointTen()
    ensures Version([1, 10]) == Ok("1.10")
    ensures StandardizeVersion(VersionText("1.10")) == Ok([1, 10])
  {
    assert Decimal(1) == "1";
    assert Decimal(10) == "10";
    VersionRoundTrip(1, 10);
    assert Decimal(1) + "." + Decimal(10) == "1.10";
  }

  lemma VersionMatchOnePointOne()
    ensures VersionMatch("1.1") == Ok([1, 1])
  {
    VersionMatchDecimal(1, 1);
    assert Decimal(1) == "1";
    assert Decimal(1) + "." + Decimal(1) == "1.1";
  }

  lemma AsWrittenOnePointTen()
    ensures StandardizeVersionAsWritten(VersionText("1.10")) == Ok([1, 1])
  {
    FloatStrOnePointTen();
    VersionMatchOnePointOne();
  }

  /** As written, a minor number with a trailing zero loses it: "1.10" is
      read as version (1, 1), while `version` prints (1, 10) as "1.10". */
  lemma AsWrittenDropsTrailingZero()
    ensures Version([1, 10]) == Ok("1.10")
    ensures StandardizeVersionAsWritten(VersionText("1.10")) == Ok([1, 1])
    ensures StandardizeVersion(VersionText("1.10")) == Ok([1, 10])
  {
    OnePointTen();
    AsWrittenOnePointTen();
  }

  // ---------------------------------------------------------------------
  // The visitor's version

  /** What a visitor knows of a NineML class: its type name and, for some
      classes, a different name used by version 1 documents. */
  datatype NineMLClass = NineMLClass(ninemlType: string, v1Type: Option<string>)

  /** `node_name`: the version 1 name is used only when the major version is
      1 and the class has one; the major version is `version[0]`. */
  function NodeName(version: seq<int>, cls: NineMLClass): (r: Result<string>)
    ensures r.Err? <==> version == []
    ensures r.Err? ==> r.error == IndexError
    ensures r.Ok? ==> r.value in {cls.ninemlType} + (if cls.v1Type.Some? then {cls.v1Type.value} else {})
  {
    if version == [] then Err(IndexError)
    else if version[0] == 1 && cls.v1Type.Some? then Ok(cls.v1Type.value)
    else Ok(cls.ninemlType)
  }

  /** The name is the version 1 one exactly for major version 1, and it
      depends on nothing else of the version. */
  lemma NodeNameByMajorVersion(a: seq<int>, b: seq<int>, cls: NineMLClass)
    requires cls.v1Type.Some? && cls.v1Type.value != cls.ninemlType
    requires a != [] && b != []
    ensures NodeName(a, cls) == Ok(cls.v1Type.value) <==> a[0] == 1
    ensures a[0] == b[0] ==> NodeName(a, cls) == NodeName(b, cls)
  {
  }

  /** The comparison `later_version` makes: the first position where the
      versions differ decides, and `equal` is returned when one is a prefix
      of the other. */
  function Later(mine: seq<int>, other: seq<int>, equal: bool): bool
  {
    if mine == [] || other == [] then equal
    else if mine[0] > other[0] then true
    else if mine[0] < other[0] then false
    else Later(mine[1..], other[1..], equal)
  }

  /** The length of the common prefix of two versions. */
  function CommonPrefix(a: seq<int>, b: seq<int>): (d: nat)
    ensures d <= |a| && d <= |b| && a[..d] == b[..d]
    ensures d < |a| && d < |b| ==> a[d] != b[d]
  {
    if a == [] || b == [] || a[0] != b[0] then 0
    else
      var d := 1 + CommonPrefix(a[1..], b[1..]);
      assert a[..d] == [a[0]] + a[1..][..d - 1];
      assert b[..d] == [b[0]] + b[1..][..d - 1];
      d
  }

  /** `Later` is the lexicographic comparison at the first difference. */
  lemma {:induction false} LaterIsLexicographic(a: seq<int>, b: seq<int>, equal: bool)
    ensures var d := CommonPrefix(a, b);
            Later(a, b, equal) == if d < |a| && d < |b| then a[d] > b[d] else equal
  {
    if a != [] && b != [] && a[0] == b[0] {
      LaterIsLexicographic(a[1..], b[1..], equal);
    }
  }

  /** Identical versions give `equal`; different versions of the same length
      are ordered one way or the other, whatever flag is passed. */
  lemma LaterOrder(a: seq<int>, b: seq<int>, e1: bool, e2: bool)
    ensures Later(a, a, e1) == e1
    ensures |a| == |b| && a != b ==> Later(a, b, e1) == !Later(b, a, e2)
  {
    LaterIsLexicographic(a, a, e1);
    LaterIsLexicographic(a, b, e1);
    LaterIsLexicographic(b, a, e2);
    var d := CommonPrefix(a, b);
    assert CommonPrefix(b, a) == d by {
      CommonPrefixSymmetric(a, b);
    }
    assert a[..|a|] == a && b[..|b|] == b;
  }

  lemma {:induction false} CommonPrefixSymmetric(a: seq<int>, b: seq<int>)
    ensures CommonPrefix(a, b) == CommonPrefix(b, a)
  {
    if a != [] && b != [] && a[0] == b[0] {
      CommonPrefixSymmetric(a[1..], b[1..]);
    }
  }

  /** `later_version`: standardizes the other version and walks both
      versions in step. */
  method LaterVersion(mine: seq<int>, version: VersionArgument, equal: bool) returns (r: Result<bool>)
    ensures r.Ok? <==> StandardizeVersion(version).Ok?
    ensures r.Err? ==> r.error == StandardizeVersion(version).error
    ensures r.Ok? ==> r.value == Later(mine, StandardizeVersion(version).value, equal)
  {
    var other :- StandardizeVersion(version);
    var i := 0;
    while i < |mine| && i < |other|
      invariant 0 <= i <= |mine| && 0 <= i <= |other|
      invariant Later(mine[i..], other[i..], equal) == Later(mine, other, equal)
    {
      if mine[i] > other[i] {
        return Ok(true);
      } else if mine[i] < other[i] {
        return Ok(false);
      }
      assert mine[i..][1..] == mine[i + 1..] && other[i..][1..] == other[i + 1..];
      i := i + 1;
    }
    return Ok(equal);
  }

  // ---------------------------------------------------------------------
  // Writing references

  /** The `ref_style` option. */
  datatype RefStyle = NoStyle | Prefer | Inline | Local | ForceReference | ForceInline | OtherStyle(style: string)

  /** A document, known by its url. */
  datatype Document = Document(url: Option<string>)

  /** The result of `_get_reference_url`: `False` (written inline), `None` (a
      reference within the local document) or the url to refer to. */
  datatype RefUrl = Inlined | LocalReference | UrlReference(url: string)

  /** `visit`: the forcing styles override the `reference` argument. */
  function Forced(reference: Option<bool>, style: RefStyle): Option<bool>
  {
    match style
    case ForceReference => Some(true)
    case ForceInline => Some(false)
    case _ => reference
  }

  /** Whether the object is written as a reference: the explicit argument
      wins, otherwise the style decides, with no style meaning "if the
      object was loaded from a document". */
  function WriteReference(reference: Option<bool>, style: RefStyle, hasDocument: bool): (r: Result<bool>)
    ensures reference.Some? ==> r == Ok(reference.value)
    ensures reference.None? ==> (r.Err? <==> style !in {NoStyle, Prefer, Inline, Local})
    ensures reference.None? && style == NoStyle ==> r == Ok(hasDocument)
    ensures r.Err? ==> r.error == SerializationError
  {
    if reference.Some? then Ok(reference.value)
    else
      match style
      case NoStyle => Ok(hasDocument)
      case Prefer => Ok(true)
      case Inline => Ok(false)
      case Local => Ok(true)
      case _ => Err(SerializationError)
  }

  /** `_get_reference_url`.  `relative` stands for
      `os.path.relpath(object url, os.path.dirname(own url))`, which needs
      the serializer's own document to have a url.  The url is `False`
      exactly when no reference is written, `None` for an object of the same
      (or no) document or with the 'local' style, the object's url when
      absolute references are asked for, and otherwise a relative path that
      always starts with '.'. */
  function ReferenceUrl(objectDocument: Option<Document>, own: Document, reference: Option<bool>,
                        style: RefStyle, absoluteRefs: bool, relative: string): (r: Result<RefUrl>)
    ensures var w := WriteReference(reference, style, objectDocument.Some?);
            && (r == Ok(Inlined) <==> w == Ok(false))
            && (r == Ok(LocalReference) <==>
                  w == Ok(true) &&
                  (objectDocument.None? || objectDocument.value.url.None? ||
                   objectDocument.value.url == own.url || style == Local))
            && (r.Err? <==> w.Err? || (w == Ok(true) && r != Ok(LocalReference) && !absoluteRefs && own.url.None?))
    ensures r.Ok? && r.value.UrlReference? && absoluteRefs ==>
              objectDocument.Some? && objectDocument.value.url == Some(r.value.url)
    ensures r.Ok? && r.value.UrlReference? && !absoluteRefs ==> |r.value.url| > 0 && r.value.url[0] == '.'
  {
    var write :- WriteReference(reference, style, objectDocument.Some?);
    if !write then Ok(Inlined)
    else if objectDocument.None? || objectDocument.value.url == own.url || style == Local
         || objectDocument.value.url.None? then Ok(LocalReference)
    else if absoluteRefs then Ok(UrlReference(objectDocument.value.url.value))
    else if own.url.None? then Err(AttributeError)
    else if |relative| > 0 && relative[0] == '.' then Ok(UrlReference(relative))
    else Ok(UrlReference("./" + relative))
  }

  /** The document is consulted only when there is neither a `reference`
      argument nor a style, and the forcing styles of `visit` decide on
      their own whatever the argument. */
  lemma ReferenceDecision(reference: Option<bool>, style: RefStyle, d1: bool, d2: bool)
    ensures style != NoStyle || reference.Some? ==>
              WriteReference(reference, style, d1) == WriteReference(reference, style, d2)
    ensures style == ForceReference ==> WriteReference(Forced(reference, style), style, d1) == Ok(true)
    ensures style == ForceInline ==> WriteReference(Forced(reference, style), style, d1) == Ok(false)
  {
  }

  // ---------------------------------------------------------------------
  // Serial elements

  /** A serial element: its attributes, its tagged children in document
      order and its body text, if any. */
  datatype Elem = Elem(attrs: map<string, string>, children: seq<Child>, body: Option<string>)
  datatype Child = Child(tag: string, elem: Elem)

  /** The children whose tag is in `names` (when `keep`) or not in it (when
      not `keep`), in document order. */
  function Select(cs: seq<Child>, names: set<string>, keep: bool): (r: seq<Child>)
    ensures |r| <= |cs|
  {
    if cs == [] then []
    else
      var rest := Select(cs[..|cs| - 1], names, keep);
      if (cs[|cs| - 1].tag in names) == keep then rest + [cs[|cs| - 1]] else rest
  }

  /** The selected children are exactly those with a selected tag. */
  lemma {:induction false} SelectMembers(cs: seq<Child>, names: set<string>, keep: bool)
    ensures forall c :: c in Select(cs, names, keep) <==> c in cs && (c.tag in names <==> keep)
  {
    if cs != [] {
      var init := cs[..|cs| - 1];
      assert cs == init + [cs[|cs| - 1]];
      SelectMembers(init, names, keep);
    }
  }

  /** Selecting from a prefix selects a prefix. */
  lemma {:induction false} SelectPrefix(cs: seq<Child>, names: set<string>, keep: bool, i: nat)
    requires i <= |cs|
    ensures Select(cs[..i], names, keep) <= Select(cs, names, keep)
    decreases |cs| - i
  {
    if i < |cs| {
      SelectPrefix(cs, names, keep, i + 1);
      assert cs[..i + 1][..i] == cs[..i];
    } else {
      assert cs[..i] == cs;
    }
  }

  /** Dropping the annotations before matching other tags changes nothing. */
  lemma {:induction false} SelectIgnoresAnnotations(cs: seq<Child>, names: set<string>, annotations: string)
    requires annotations !in names
    ensures Select(Select(cs, {annotations}, false), names, true) == Select(cs, names, true)
  {
    if cs != [] {
      SelectIgnoresAnnotations(cs[..|cs| - 1], names, annotations);
      var others := Select(cs[..|cs| - 1], {annotations}, false);
      if cs[|cs| - 1].tag != annotations {
        assert (others + [cs[|cs| - 1]])[..|others|] == others;
      }
    }
  }

  /** `get_single_child` without references: `names` is `None` when no
      names are given, which fails on the membership test for the
      annotations' name; annotations are dropped unless asked for; exactly
      one match is required. */
  function SingleChild(e: Elem, names: Option<set<string>>, annotations: string): (r: Result<Child>)
    ensures r.Ok? <==> names.Some? && |Select(e.children, names.value, true)| == 1
    ensures r.Ok? ==> r.value in e.children && r.value.tag in names.value &&
                      forall c :: c in e.children && c.tag in names.value ==> c == r.value
    ensures names.None? ==> r == Err(TypeError)
    ensures names.Some? && |Select(e.children, names.value, true)| > 1 ==> r == Err(UnexpectedMultiple)
    ensures names.Some? && Select(e.children, names.value, true) == [] ==> r == Err(MissingSerialization)
  {
    if names.None? then Err(TypeError)
    else
      var candidates := if annotations in names.value then e.children
                        else Select(e.children, {annotations}, false);
      var matches := Select(candidates, names.value, true);
      SelectMembers(e.children, names.value, true);
      assert matches == Select(e.children, names.value, true) by {
        if annotations !in names.value {
          SelectIgnoresAnnotations(e.children, names.value, annotations);
        }
      }
      if |matches| > 1 then Err(UnexpectedMultiple)
      else if matches == [] then Err(MissingSerialization)
      else Ok(matches[0])
  }

  function Tags(cs: seq<Child>): set<string>
  {
    set c | c in cs :: c.tag
  }

  lemma SelectSnoc(cs: seq<Child>, c: Child, names: set<string>, keep: bool)
    ensures Select(cs + [c], names, keep) ==
              Select(cs, names, keep) + (if (c.tag in names) == keep then [c] else [])
  {
    assert (cs + [c])[..|cs|] == cs;
  }

  lemma TagsSnoc(cs: seq<Child>, c: Child)
    ensures Tags(cs + [c]) == Tags(cs) + {c.tag}
  {
    assert forall d :: d in cs + [c] <==> d in cs || d == c;
  }

  lemma DiscardStep(u: set<string>, names: set<string>, seen: set<string>, t: string)
    ensures u - (names * (seen + {t})) == (u - (names * seen)) - (if t in names then {t} else {})
  {
  }

  /** `str(body)`, the default `dtype`: an empty body reads "None". */
  function BodyText(body: Option<string>): string
  {
    if body.Some? then body.value else "None"
  }

  /** The `default` option of `attr`, used when the attribute is missing. */
  function Fallback(default: Option<string>): (r: Result<string>)
  {
    if default.Some? then Ok(default.value) else Err(MissingSerialization)
  }

  /** The `n` argument of `children`: '+', '*' or a number. */
  datatype Multiplicity = AtLeastOne | AnyNumber | Exactly(n: int)

  predicate Admits(n: Multiplicity, count: nat)
  {
    match n
    case AtLeastOne => count >= 1
    case AnyNumber => true
    case Exactly(k) => count == k
  }

  /** The loop of `children`: collects the children with one of the given
      tags, in document order, and discards each such tag from the
      unconsumed ones. */
  method MatchChildren(cs: seq<Child>, names: set<string>, unprocessed: set<string>)
    returns (children: seq<Child>, remaining: set<string>)
    ensures children == Select(cs, names, true)
    ensures remaining == unprocessed - (names * Tags(cs))
  {
    children := [];
    remaining := unprocessed;
    var i := 0;
    while i < |cs|
      invariant 0 <= i <= |cs|
      invariant children == Select(cs[..i], names, true)
      invariant remaining == unprocessed - (names * Tags(cs[..i]))
    {
      var c := cs[i];
      assert cs[..i + 1] == cs[..i] + [c];
      SelectSnoc(cs[..i], c, names, true);
      TagsSnoc(cs[..i], c);
      DiscardStep(unprocessed, names, Tags(cs[..i]), c.tag);
      if c.tag in names {
        children := children + [c];
        remaining := remaining - {c.tag};
      }
      i := i + 1;
    }
    assert cs[..i] == cs;
  }

  /** `NodeToUnserialize`: a serial element and what of it is still
      unconsumed. */
  class NodeToUnserialize {
    const elem: Elem
    /** The node name of annotations, whose children are never counted. */
    const annotations: string
    var unprocessedAttr: set<string>
    var unprocessedChildren: set<string>
    var unprocessedBody: bool

    /** Only what the element has can be unconsumed. */
    predicate Valid()
      reads this
    {
      && unprocessedAttr <= elem.attrs.Keys
      && unprocessedChildren <= Tags(elem.children) - {annotations}
      && (unprocessedBody ==> elem.body.Some?)
    }

    constructor (elem: Elem, annotations: string, checkUnprocessed: bool)
      ensures this.elem == elem && this.annotations == annotations
      ensures checkUnprocessed ==>
                && unprocessedAttr == elem.attrs.Keys
                && unprocessedChildren == Tags(elem.children) - {annotations}
                && unprocessedBody == elem.body.Some?
      ensures !checkUnprocessed ==> unprocessedAttr == {} && unprocessedChildren == {} && !unprocessedBody
      ensures Valid()
    {
      this.elem := elem;
      this.annotations := annotations;
      if checkUnprocessed {
        unprocessedAttr := elem.attrs.Keys;
        unprocessedChildren := Tags(elem.children) - {annotations};
        unprocessedBody := elem.body.Some?;
      } else {
        unprocessedAttr := {};
        unprocessedChildren := {};
        unprocessedBody := false;
      }
    }

    /** `attr` with `dtype=str`.  An attribute is read from the element and
        marked consumed; an attribute "in the body" is the body of the single
        child of that tag, which is marked consumed, and a child already
        consumed counts as missing. */
    method Attr(name: string, inBody: bool, default: Option<string>) returns (r: Result<string>)
      requires Valid()
      modifies this
      ensures Valid()
      ensures unprocessedBody == old(unprocessedBody)
      ensures !inBody ==> unprocessedChildren == old(unprocessedChildren)
      ensures !inBody && name in elem.attrs ==>
                r == Ok(elem.attrs[name]) && unprocessedAttr == old(unprocessedAttr) - {name}
      ensures !inBody && name !in elem.attrs ==> r == Fallback(default) && unprocessedAttr == old(unprocessedAttr)
      ensures inBody ==> unprocessedAttr == old(unprocessedAttr)
      ensures inBody ==>
                var single := SingleChild(elem, Some({name}), annotations);
                if single.Err? then r == Err(single.error) && unprocessedChildren == old(unprocessedChildren)
                else if name in old(unprocessedChildren) then
                  r == Ok(BodyText(single.value.elem.body)) && unprocessedChildren == old(unprocessedChildren) - {name}
                else r == Fallback(default) && unprocessedChildren == old(unprocessedChildren)
    {
      if inBody {
        var single := SingleChild(elem, Some({name}), annotations);
        if single.Err? {
          return Err(single.error);
        }
        if name !in unprocessedChildren {
          return Fallback(default);
        }
        unprocessedChildren := unprocessedChildren - {name};
        return Ok(BodyText(single.value.elem.body));
      } else {
        if name !in elem.attrs {
          return Fallback(default);
        }
        unprocessedAttr := unprocessedAttr - {name};
        return Ok(elem.attrs[name]);
      }
    }

    /** `children` without references: the children with one of the given
        tags, in document order, each tag marked consumed, then the count
        checked against `n`. */
    method Children(names: set<string>, n: Multiplicity) returns (r: Result<seq<Child>>)
      requires Valid()
      modifies this
      ensures Valid()
      ensures unprocessedAttr == old(unprocessedAttr) && unprocessedBody == old(unprocessedBody)
      ensures unprocessedChildren == old(unprocessedChildren) - (names * Tags(elem.children))
      ensures r.Ok? <==> Admits(n, |Select(elem.children, names, true)|)
      ensures r.Ok? ==> r.value == Select(elem.children, names, true)
      ensures r.Err? ==> r.error == SerializationError
    {
      var children, remaining := MatchChildren(elem.children, names, unprocessedChildren);
      unprocessedChildren := remaining;
      if !Admits(n, |children|) {
        return Err(SerializationError);
      }
      return Ok(children);
    }

    /** `body` with `dtype=str`: marks the body consumed; an empty body is
        an error unless allowed. */
    method Body(allowEmpty: bool) returns (r: Result<Option<string>>)
      requires Valid()
      modifies this
      ensures Valid()
      ensures !unprocessedBody
      ensures unprocessedAttr == old(unprocessedAttr) && unprocessedChildren == old(unprocessedChildren)
      ensures r == if elem.body.Some? then Ok(elem.body) else if allowEmpty then Ok(None) else Err(SerializationError)
    {
      unprocessedBody := false;
      if elem.body.None? {
        if allowEmpty {
          return Ok(None);
        }
        return Err(SerializationError);
      }
      return Ok(elem.body);
    }

    /** The tests `visit` makes after unserializing a node: unconsumed
        children, then attributes, then the body, each an error. */
    function CheckProcessed(): (r: Result<()>)
      reads this
      ensures r.Ok? <==> unprocessedChildren == {} && unprocessedAttr == {} && !unprocessedBody
      ensures r.Err? ==> r.error == SerializationError
    {
      if unprocessedChildren != {} then Err(SerializationError)
      else if unprocessedAttr != {} then Err(SerializationError)
      else if unprocessedBody then Err(SerializationError)
      else Ok(())
    }
  }

  /** `visit` for a class whose `unserialize_node` reads the given required
      attributes, the children with the given tags and, if asked, the body:
      it succeeds exactly when the attributes read are those the element has
      and no child (other than annotations) or body is left unread. */
  method Visit(elem: Elem, annotations: string, attrNames: seq<string>, childTags: set<string>, readBody: bool)
    returns (r: Result<()>)
    ensures r.Ok? <==> && (set a | a in attrNames) == elem.attrs.Keys
                       && Tags(elem.children) - {annotations} <= childTags
                       && (elem.body.Some? ==> readBody)
  {
    var node := new NodeToUnserialize(elem, annotations, true);
    var i := 0;
    while i < |attrNames|
      invariant 0 <= i <= |attrNames|
      invariant node.Valid() && node.elem == elem && node.annotations == annotations
      invariant (set a | a in attrNames[..i]) <= elem.attrs.Keys
      invariant node.unprocessedAttr == elem.attrs.Keys - (set a | a in attrNames[..i])
      invariant node.unprocessedChildren == Tags(elem.children) - {annotations}
      invariant node.unprocessedBody == elem.body.Some?
    {
      var value := node.Attr(attrNames[i], false, None);
      if value.Err? {
        assert attrNames[i] in (set a | a in attrNames);
        return Err(value.error);
      }
      assert attrNames[..i + 1] == attrNames[..i] + [attrNames[i]];
      i := i + 1;
    }
    assert attrNames[..i] == attrNames;
    var children := node.Children(childTags, AnyNumber);
    if readBody {
      var body := node.Body(true);
    }
    var attrs := set a | a in attrNames;
    assert node.unprocessedAttr == elem.attrs.Keys - attrs;
    assert node.unprocessedAttr == {} <==> attrs == elem.attrs.Keys by {
      if node.unprocessedAttr == {} {
        forall k | k in elem.attrs.Keys ensures k in attrs {
          assert k !in node.unprocessedAttr;
        }
      }
    }
    var expected := Tags(elem.children) - {annotations};
    assert node.unprocessedChildren == expected - (childTags * Tags(elem.children));
    assert node.unprocessedChildren == {} <==> expected <= childTags by {
      if node.unprocessedChildren == {} {
        forall t | t in expected ensures t in childTags {
          assert t !in node.unprocessedChildren;
        }
      }
    }
    r := node.CheckProcessed();
  }

  /** What a serializing node has written: a containing element, or an
      object visited inside the node or inside a container. */
  datatype Written = Container(tag: string) | Visited(key: string, within: Option<string>)

  function ContainerTags(ws: seq<Written>): set<string>
  {
    set w | w in ws && w.Container? :: w.tag
  }

  /** Objects visited directly in the node, in the given order. */
  function VisitedAll(keys: seq<string>): (ws: seq<Written>)
    ensures |ws| == |keys| && forall i :: 0 <= i < |keys| ==> ws[i] == Visited(keys[i], None)
    ensures ContainerTags(ws) == {}
  {
    if keys == [] then []
    else
      var init := VisitedAll(keys[..|keys| - 1]);
      ContainerTagsAppend(init, [Visited(keys[|keys| - 1], None)]);
      init + [Visited(keys[|keys| - 1], None)]
  }

  lemma ContainerTagsAppend(a: seq<Written>, b: seq<Written>)
    ensures ContainerTags(a + b) == ContainerTags(a) + ContainerTags(b)
  {
    assert forall w :: w in a + b <==> w in a || w in b;
  }

  /** `NodeToSerialize`: the containers created so far and what has been
      written. */
  class NodeToSerialize {
    var withins: set<string>
    var written: seq<Written>

    /** `withins` records exactly the containers created. */
    predicate Valid()
      reads this
    {
      withins == ContainerTags(written)
    }

    constructor ()
      ensures withins == {} && written == [] && Valid()
    {
      withins := {};
      written := [];
    }

    /** `child`: an object visited directly, or inside a container of the
        given tag, which may be created twice only for `multiple` objects. */
    method Child(key: string, within: Option<string>, multiple: bool) returns (r: Result<()>)
      requires Valid()
      modifies this
      ensures Valid()
      ensures within.Some? && within.value in old(withins) && !multiple ==>
                r == Err(SerializationError) && written == old(written) && withins == old(withins)
      ensures within.None? ==> r == Ok(()) && written == old(written) + [Visited(key, None)] && withins == old(withins)
      ensures within.Some? && (within.value !in old(withins) || multiple) ==>
                && r == Ok(())
                && written == old(written) + [Container(within.value), Visited(key, within)]
                && withins == old(withins) + {within.value}
    {
      if within.Some? {
        if within.value in withins && !multiple {
          return Err(SerializationError);
        }
        written := written + [Container(within.value), Visited(key, within)];
        withins := withins + {within.value};
      } else {
        written := written + [Visited(key, None)];
      }
      return Ok(());
    }

    /** `children`: the objects visited directly, ordered by their keys. */
    method Children(keys: set<string>)
      requires Valid()
      modifies this
      ensures Valid()
      ensures withins == old(withins)
      ensures written == old(written) + VisitedAll(SortedKeys(keys))
    {
      VisitInOrder(SortedKeys(keys));
    }

    /** The loop of `children`, over the keys once sorted. */
    method VisitInOrder(keys: seq<string>)
      requires Valid()
      modifies this
      ensures Valid()
      ensures withins == old(withins)
      ensures written == old(written) + VisitedAll(keys)
    {
      var i := 0;
      while i < |keys|
        invariant 0 <= i <= |keys|
        invariant withins == old(withins)
        invariant written == old(written) + VisitedAll(keys[..i])
      {
        assert keys[..i + 1][..i] == keys[..i];
        assert VisitedAll(keys[..i + 1]) == VisitedAll(keys[..i]) + [Visited(keys[i], None)];
        written := written + [Visited(keys[i], None)];
        i := i + 1;
      }
      assert keys[..i] == keys;
      ContainerTagsAppend(old(written), VisitedAll(keys));
    }
  }

  // ---------------------------------------------------------------------
  // Opening a document

  /** `_get_elem_name`: document-level elements are named by their `name`
      attribute, units by their `symbol`. */
  function ElemName(e: Elem): (r: Result<string>)
    ensures r.Ok? <==> "name" in e.attrs || "symbol" in e.attrs
    ensures r.Ok? ==> r.value == if "name" in e.attrs then e.attrs["name"] else e.attrs["symbol"]
    ensures r.Err? ==> r.error == SerializationError
  {
    if "name" in e.attrs then Ok(e.attrs["name"])
    else if "symbol" in e.attrs then Ok(e.attrs["symbol"])
    else Err(SerializationError)
  }

  predicate Nameable(ms: seq<Child>)
  {
    forall i :: 0 <= i < |ms| ==> ElemName(ms[i].elem).Ok?
  }

  function Names(ms: seq<Child>): (ns: seq<string>)
    requires Nameable(ms)
    ensures |ns| == |ms| && forall i :: 0 <= i < |ms| ==> ns[i] == ElemName(ms[i].elem).value
  {
    seq(|ms|, i requires 0 <= i < |ms| => ElemName(ms[i].elem).value)
  }

  predicate NoRepeats(ns: seq<string>)
  {
    forall i, j :: 0 <= i < j < |ns| ==> ns[i] != ns[j]
  }

  /** The document-level elements (the children other than annotations)
      stored by name. */
  predicate Indexes(unloaded: map<string, Elem>, ms: seq<Child>)
    requires Nameable(ms)
  {
    && unloaded.Keys == (set n | n in Names(ms))
    && forall i :: 0 <= i < |ms| ==> unloaded[Names(ms)[i]] == ms[i].elem
  }

  /** The document-level elements of a document. */
  function Members(root: Elem, annotations: string): seq<Child>
  {
    Select(root.children, {annotations}, false)
  }

  /** Every element's tag names a document-level class; `recognised` stands
      for the tags the class map or `get_nineml_class` resolves. */
  predicate Recognised(ms: seq<Child>, recognised: set<string>)
  {
    forall i :: 0 <= i < |ms| ==> ms[i].tag in recognised
  }

  /** The elements of `ms` are named, no two alike, and of recognised types. */
  predicate Storable(ms: seq<Child>, recognised: set<string>)
  {
    Nameable(ms) && NoRepeats(Names(ms)) && Recognised(ms, recognised)
  }

  /** What opening a document as written demands: every document-level
      element is named, no two by the same name, and each of a type that
      resolves to a document-level class. */
  predicate AsWrittenAccepts(root: Elem, annotations: string, recognised: set<string>)
  {
    Storable(Members(root, annotations), recognised)
  }

  /** What it evidently should demand besides: at most one annotations
      element at document level. */
  predicate Accepts(root: Elem, annotations: string, recognised: set<string>)
  {
    |Select(root.children, {annotations}, true)| <= 1 && AsWrittenAccepts(root, annotations, recognised)
  }

  /** The index built when a document is opened, and its document-level
      annotations. */
  datatype Loaded = Loaded(unloaded: map<string, Elem>, annotationsElem: Option<Elem>)

  /** Stores one more document-level element, failing on a missing or a
      repeated name, or on a type with no document-level class. */
  method StoreMember(unloaded: map<string, Elem>, ghost before: seq<Child>, ghost all: seq<Child>, c: Child,
                     recognised: set<string>)
    returns (r: Result<map<string, Elem>>)
    requires Storable(before, recognised) && Indexes(unloaded, before)
    requires before + [c] <= all
    ensures r.Err? ==> r.error == SerializationError && !Storable(all, recognised)
    ensures r.Ok? ==> Storable(before + [c], recognised) && Indexes(r.value, before + [c])
  {
    var after := before + [c];
    assert all[|before|] == c;
    var name := ElemName(c.elem);
    if name.Err? {
      return Err(SerializationError);
    }
    assert Nameable(after) by {
      forall i | 0 <= i < |after| ensures ElemName(after[i].elem).Ok? {
        if i < |before| {
          assert after[i] == before[i];
        }
      }
    }
    if name.value in unloaded {
      assert name.value in Names(before);
      ghost var j :| 0 <= j < |before| && Names(before)[j] == name.value;
      assert all[j] == before[j];
      return Err(SerializationError);
    }
    assert Names(after) == Names(before) + [name.value];
    if c.tag !in recognised {
      return Err(SerializationError);
    }
    return Ok(unloaded[name.value := c.elem]);
  }

  /** The loop of `BaseUnserializer.__init__` as written: annotations are
      skipped, but the element found is never recorded, so the test for a
      second one never fires; every other element is stored by name. */
  method OpenAsWritten(root: Elem, annotations: string, recognised: set<string>) returns (r: Result<Loaded>)
    ensures r.Ok? <==> AsWrittenAccepts(root, annotations, recognised)
    ensures r.Ok? ==> r.value.annotationsElem == None && Indexes(r.value.unloaded, Members(root, annotations))
    ensures r.Err? ==> r.error == SerializationError
  {
    var unloaded := map[];
    ghost var members := [];
    var i := 0;
    while i < |root.children|
      invariant 0 <= i <= |root.children|
      invariant members == Select(root.children[..i], {annotations}, false)
      invariant Storable(members, recognised) && Indexes(unloaded, members)
    {
      var c := root.children[i];
      assert root.children[..i + 1] == root.children[..i] + [c];
      SelectSnoc(root.children[..i], c, {annotations}, false);
      if c.tag != annotations {
        SelectPrefix(root.children, {annotations}, false, i + 1);
        var stored := StoreMember(unloaded, members, Members(root, annotations), c, recognised);
        if stored.Err? {
          return Err(stored.error);
        }
        unloaded := stored.value;
        members := members + [c];
      }
      i := i + 1;
    }
    assert root.children[..i] == root.children;
    return Ok(Loaded(unloaded, None));
  }

  /** The element of the first child, if any. */
  function First(cs: seq<Child>): Option<Elem>
  {
    if cs == [] then None else Some(cs[0].elem)
  }

  /** One turn of the loop of `Open`: an annotations element is recorded,
      unless one was already, and any other element is stored by name. */
  method OpenStep(unloaded: map<string, Elem>, annotationsElem: Option<Elem>, ghost members: seq<Child>,
                  ghost found: seq<Child>, ghost root: Elem, c: Child, annotations: string, recognised: set<string>)
    returns (r: Result<(map<string, Elem>, Option<Elem>)>)
    requires Storable(members, recognised) && Indexes(unloaded, members)
    requires |found| <= 1 && annotationsElem == First(found)
    requires c.tag == annotations ==> found + [c] <= Select(root.children, {annotations}, true)
    requires c.tag != annotations ==> members + [c] <= Members(root, annotations)
    ensures r.Err? ==> r.error == SerializationError && !Accepts(root, annotations, recognised)
    ensures r.Ok? && c.tag == annotations ==>
              r.value.0 == unloaded && |found + [c]| <= 1 && r.value.1 == First(found + [c])
    ensures r.Ok? && c.tag != annotations ==>
              && Storable(members + [c], recognised)
              && Indexes(r.value.0, members + [c]) && r.value.1 == annotationsElem
  {
    if c.tag == annotations {
      if annotationsElem.Some? {
        assert |found + [c]| == 2;
        return Err(SerializationError);
      }
      return Ok((unloaded, Some(c.elem)));
    }
    var stored := StoreMember(unloaded, members, Members(root, annotations), c, recognised);
    if stored.Err? {
      return Err(stored.error);
    }
    return Ok((stored.value, annotationsElem));
  }

  /** The same loop as evidently intended: the first annotations element is
      recorded and a second one is an error. */
  method Open(root: Elem, annotations: string, recognised: set<string>) returns (r: Result<Loaded>)
    ensures r.Ok? <==> Accepts(root, annotations, recognised)
    ensures r.Ok? ==> Indexes(r.value.unloaded, Members(root, annotations))
    ensures r.Ok? ==> r.value.annotationsElem == First(Select(root.children, {annotations}, true))
    ensures r.Err? ==> r.error == SerializationError
  {
    var unloaded := map[];
    var annotationsElem: Option<Elem> := None;
    ghost var members := [];
    ghost var found := [];
    var i := 0;
    while i < |root.children|
      invariant 0 <= i <= |root.children|
      invariant members == Select(root.children[..i], {annotations}, false)
      invariant Storable(members, recognised) && Indexes(unloaded, members)
      invariant found == Select(root.children[..i], {annotations}, true)
      invariant |found| <= 1 && annotationsElem == First(found)
    {
      var c := root.children[i];
      assert root.children[..i + 1] == root.children[..i] + [c];
      SelectSnoc(root.children[..i], c, {annotations}, false);
      SelectSnoc(root.children[..i], c, {annotations}, true);
      SelectPrefix(root.children, {annotations}, false, i + 1);
      SelectPrefix(root.children, {annotations}, true, i + 1);
      var step := OpenStep(unloaded, annotationsElem, members, found, root, c, annotations, recognised);
      if step.Err? {
        return Err(step.error);
      }
      unloaded, annotationsElem := step.value.0, step.value.1;
      if c.tag == annotations {
        found := found + [c];
      } else {
        members := members + [c];
      }
      i := i + 1;
    }
    assert root.children[..i] == root.children;
    return Ok(Loaded(unloaded, annotationsElem));
  }

  /** A document with two annotations elements at document level: opened as
      written it is accepted, as intended it is refused. */
  lemma RepeatedAnnotationsAccepted(annotations: string, e: Elem, recognised: set<string>)
    ensures var root := Elem(map[], [Child(annotations, e), Child(annotations, e)], None);
            AsWrittenAccepts(root, annotations, recognised) && !Accepts(root, annotations, recognised)
  {
    var cs := [Child(annotations, e), Child(annotations, e)];
    SelectSnoc([Child(annotations, e)], Child(annotations, e), {annotations}, false);
    SelectSnoc([Child(annotations, e)], Child(annotations, e), {annotations}, true);
    SelectSnoc([], Child(annotations, e), {annotations}, false);
    SelectSnoc([], Child(annotations, e), {annotations}, true);
    assert [Child(annotations, e)] + [Child(annotations, e)] == cs;
    assert [] + [Child(annotations, e)] == [Child(annotations, e)];
  }
}
