/** String helpers used across the model: Python's `sep.join(parts)` and
    Python's ordering of `str` values (code-point lexicographic order), with
    the sorted key list that `sorted(d.iterkeys())` produces. */
module Strings {

  /** `sep.join(parts)`. */
  function Join(sep: string, parts: seq<string>): string
  {
    if |parts| == 0 then ""
    else if |parts| == 1 then parts[0]
    else parts[0] + sep + Join(sep, parts[1..])
  }

  /** Joining one more part adds the separator and that part at the end. */
  lemma {:induction false} JoinSnoc(sep: string, parts: seq<string>, p: string)
    requires parts != []
    ensures Join(sep, parts + [p]) == Join(sep, parts) + sep + p
  {
    if |parts| > 1 {
      assert (parts + [p])[1..] == parts[1..] + [p];
      JoinSnoc(sep, parts[1..], p);
    } else {
      assert parts + [p] == [parts[0], p];
    }
  }

  /** Python's `a <= b` on strings: code-point lexicographic order. */
  predicate Below(a: string, b: string)
  {
    |a| == 0 || (|b| > 0 && (a[0] < b[0] || (a[0] == b[0] && Below(a[1..], b[1..]))))
  }

  lemma {:induction false} BelowTotal(a: string, b: string)
    ensures Below(a, b) || Below(b, a)
  {
    if |a| > 0 && |b| > 0 && a[0] == b[0] {
      BelowTotal(a[1..], b[1..]);
    }
  }

  lemma {:induction false} BelowAntisymmetric(a: string, b: string)
    requires Below(a, b) && Below(b, a)
    ensures a == b
  {
    if |a| > 0 && |b| > 0 {
      BelowAntisymmetric(a[1..], b[1..]);
      assert a == [a[0]] + a[1..] && b == [b[0]] + b[1..];
    }
  }

  lemma {:induction false} BelowTransitive(a: string, b: string, c: string)
    requires Below(a, b) && Below(b, c)
    ensures Below(a, c)
  {
    if |a| > 0 && a[0] == b[0] && b[0] == c[0] {
      BelowTransitive(a[1..], b[1..], c[1..]);
    }
  }

  predicate IsLeast(m: string, s: set<string>)
  {
    m in s && forall y :: y in s ==> Below(m, y)
  }

  /** Every finite non-empty set of strings has a least element. */
  lemma {:induction false} LeastExists(s: set<string>)
    requires s != {}
    ensures exists m :: IsLeast(m, s)
    decreases |s|
  {
    var y :| y in s;
    if s == {y} {
      BelowTotal(y, y);
      assert IsLeast(y, s);
    } else {
      LeastExists(s - {y});
      var m :| IsLeast(m, s - {y});
      BelowTotal(m, y);
      if Below(m, y) {
        assert IsLeast(m, s);
      } else {
        forall z | z in s ensures Below(y, z) {
          if z != y { BelowTransitive(y, m, z); } else { BelowTotal(y, y); }
        }
        assert IsLeast(y, s);
      }
    }
  }

  /** A set of strings has at most one least element. */
  lemma LeastUnique(s: set<string>)
    ensures forall a, b :: IsLeast(a, s) && IsLeast(b, s) ==> a == b
  {
    forall a, b | IsLeast(a, s) && IsLeast(b, s) ensures a == b {
      BelowAntisymmetric(a, b);
    }
  }

  /** In ascending order, with no repeats. */
  predicate StrictlySorted(r: seq<string>)
  {
    forall i, j :: 0 <= i < j < |r| ==> Below(r[i], r[j]) && r[i] != r[j]
  }

  /** `sorted(keys)`: the keys in ascending order, each exactly once. */
  function SortedKeys(s: set<string>): (r: seq<string>)
    ensures |r| == |s|
    ensures forall x :: x in r <==> x in s
    ensures StrictlySorted(r)
    decreases |s|
  {
    if s == {} then []
    else
      LeastExists(s);
      LeastUnique(s);
      var m :| IsLeast(m, s);
      [m] + SortedKeys(s - {m})
  }

  /** There is only one way to list a set of strings in ascending order
      without repeats, so `sorted` does not depend on the order in which
      the keys were inserted. */
  lemma {:induction false} SortedUnique(a: seq<string>, b: seq<string>)
    requires StrictlySorted(a) && StrictlySorted(b)
    requires forall x :: x in a <==> x in b
    ensures a == b
    decreases |a|
  {
    if a == [] {
      assert forall i :: 0 <= i < |b| ==> b[i] in a;
    } else {
      assert a[0] in a;
      assert b != [];
      assert b[0] in b;
      var i :| 0 <= i < |a| && a[i] == b[0];
      var j :| 0 <= j < |b| && b[j] == a[0];
      assert Below(a[0], b[0]) by {
        if i > 0 {
          assert Below(a[0], a[i]);
        } else {
          BelowTotal(a[0], a[0]);
        }
      }
      assert Below(b[0], a[0]) by {
        if j > 0 {
          assert Below(b[0], b[j]);
        } else {
          BelowTotal(b[0], b[0]);
        }
      }
      BelowAntisymmetric(a[0], b[0]);
      forall x ensures x in a[1..] <==> x in b[1..] {
        if x in a[1..] {
          var k :| 0 <= k < |a[1..]| && a[1..][k] == x;
          assert a[k + 1] == x && x != a[0];
          assert x in b;
          var l :| 0 <= l < |b| && b[l] == x;
          assert l != 0;
          assert b[1..][l - 1] == x;
        }
        if x in b[1..] {
          var k :| 0 <= k < |b[1..]| && b[1..][k] == x;
          assert b[k + 1] == x && x != b[0];
          assert x in a;
          var l :| 0 <= l < |a| && a[l] == x;
          assert l != 0;
          assert a[1..][l - 1] == x;
        }
      }
      SortedUnique(a[1..], b[1..]);
      assert a == [a[0]] + a[1..] && b == [b[0]] + b[1..];
    }
  }

  /** The characters Python's `str.strip()` removes (ASCII whitespace). */
  predicate IsSpace(c: char)
  {
    c == ' ' || c == '\t' || c == '\n' || c == '\r' || c == '\U{0B}' || c == '\U{0C}'
  }

  predicate AllSpace(s: string)
  {
    forall i :: 0 <= i < |s| ==> IsSpace(s[i])
  }

  /** The number of whitespace characters at the start of `s`. */
  function LeadingSpaces(s: string): (k: nat)
    ensures k <= |s| && AllSpace(s[..k])
    ensures k < |s| ==> !IsSpace(s[k])
  {
    if |s| > 0 && IsSpace(s[0]) then 1 + LeadingSpaces(s[1..]) else 0
  }

  /** The number of whitespace characters at the end of `s`. */
  function TrailingSpaces(s: string): (k: nat)
    ensures k <= |s| && AllSpace(s[|s| - k..])
    ensures k < |s| ==> !IsSpace(s[|s| - 1 - k])
  {
    if |s| > 0 && IsSpace(s[|s| - 1]) then 1 + TrailingSpaces(s[..|s| - 1]) else 0
  }

  /** `s.strip()`: the result neither starts nor ends with whitespace, and
      it is a slice of `s` that only whitespace was cut from. */
  function Strip(s: string): (r: string)
    ensures r == [] || (!IsSpace(r[0]) && !IsSpace(r[|r| - 1]))
    ensures exists a, b :: 0 <= a <= b <= |s| && r == s[a..b] && AllSpace(s[..a]) && AllSpace(s[b..])
  {
    var a := LeadingSpaces(s);
    var t := s[a..];
    var b := a + |t| - TrailingSpaces(t);
    assert s[b..] == t[|t| - TrailingSpaces(t)..];
    s[a..b]
  }

  lemma {:induction false} LeadingSpacesPadded(u: string, r: string)
    requires AllSpace(u)
    requires r == [] || !IsSpace(r[0])
    ensures LeadingSpaces(u + r) == |u|
    decreases |u|
  {
    if |u| > 0 {
      assert (u + r)[1..] == u[1..] + r;
      LeadingSpacesPadded(u[1..], r);
    } else {
      assert u + r == r;
    }
  }

  lemma {:induction false} TrailingSpacesPadded(r: string, v: string)
    requires AllSpace(v)
    requires r == [] || !IsSpace(r[|r| - 1])
    ensures TrailingSpaces(r + v) == |v|
    decreases |v|
  {
    if |v| > 0 {
      assert (r + v)[..|r + v| - 1] == r + v[..|v| - 1];
      TrailingSpacesPadded(r, v[..|v| - 1]);
    } else {
      assert r + v == r;
    }
  }

  /** Stripping whitespace padding off a word gives the word back; in
      particular stripping is idempotent. */
  lemma StripPadded(u: string, r: string, v: string)
    requires AllSpace(u) && AllSpace(v)
    requires r == [] || (!IsSpace(r[0]) && !IsSpace(r[|r| - 1]))
    ensures Strip(u + r + v) == r
  {
    if r == [] {
      assert u + r + v == u + v;
      assert AllSpace(u + v);
      AllSpaceStrip(u + v);
    } else {
      LeadingSpacesPadded(u, r + v);
      assert (u + r + v) == u + (r + v);
      assert (u + r + v)[|u|..] == r + v;
      TrailingSpacesPadded(r, v);
    }
  }

  lemma AllSpaceStrip(s: string)
    requires AllSpace(s)
    ensures Strip(s) == []
  {
    LeadingSpacesPadded(s, []);
    assert s + [] == s;
  }

  predicate IsLetter(c: char) { ('a' <= c <= 'z') || ('A' <= c <= 'Z') }
  predicate IsDigit(c: char) { '0' <= c <= '9' }

  /** A NineML identifier: a letter or underscore, then letters, digits and
      underscores. */
  predicate ValidIdentifier(s: string)
  {
    |s| > 0 && (IsLetter(s[0]) || s[0] == '_') &&
    forall i :: 1 <= i < |s| ==> IsLetter(s[i]) || IsDigit(s[i]) || s[i] == '_'
  }

  /** `s.split(c)`: the pieces between the occurrences of `c`. */
  function SplitOn(s: string, c: char): (parts: seq<string>)
    ensures |parts| >= 1
    ensures forall i :: 0 <= i < |parts| ==> c !in parts[i]
  {
    if |s| == 0 then [""]
    else
      var rest := SplitOn(s[1..], c);
      if s[0] == c then [""] + rest
      else [[s[0]] + rest[0]] + rest[1..]
  }

  /** There is one more piece than there are occurrences of `c`. */
  lemma {:induction false} SplitOnCount(s: string, c: char)
    ensures |SplitOn(s, c)| == multiset(s)[c] + 1
  {
    if |s| > 0 {
      SplitOnCount(s[1..], c);
      assert s == [s[0]] + s[1..];
      assert multiset(s) == multiset([s[0]]) + multiset(s[1..]);
    }
  }

  /** Joining a first part onto at least one more. */
  lemma JoinCons(sep: string, x: string, parts: seq<string>)
    requires parts != []
    ensures Join(sep, [x] + parts) == x + sep + Join(sep, parts)
  {
    assert ([x] + parts)[1..] == parts;
  }

  /** Gluing text onto the first part glues it onto the joined text. */
  lemma JoinGlue(sep: string, y: string, parts: seq<string>)
    requires parts != []
    ensures Join(sep, [y + parts[0]] + parts[1..]) == y + Join(sep, parts)
  {
    if |parts| > 1 {
      JoinCons(sep, y + parts[0], parts[1..]);
      JoinCons(sep, parts[0], parts[1..]);
      assert [parts[0]] + parts[1..] == parts;
    } else {
      assert [y + parts[0]] + parts[1..] == [y + parts[0]];
    }
  }

  /** One step of `JoinSplitOn`. */
  lemma JoinSplitOnStep(s: string, c: char)
    requires |s| > 0
    requires Join([c], SplitOn(s[1..], c)) == s[1..]
    ensures Join([c], SplitOn(s, c)) == s
  {
    var rest := SplitOn(s[1..], c);
    if s[0] == c {
      assert SplitOn(s, c) == [""] + rest;
      JoinCons([c], "", rest);
      assert Join([c], SplitOn(s, c)) == [c] + s[1..];
    } else {
      assert SplitOn(s, c) == [[s[0]] + rest[0]] + rest[1..];
      JoinGlue([c], [s[0]], rest);
      assert Join([c], SplitOn(s, c)) == [s[0]] + s[1..];
    }
    assert s == [s[0]] + s[1..];
  }

  /** Splitting and re-joining on the same character gives the text back. */
  lemma {:induction false} JoinSplitOn(s: string, c: char)
    ensures Join([c], SplitOn(s, c)) == s
  {
    if |s| > 0 {
      JoinSplitOn(s[1..], c);
      JoinSplitOnStep(s, c);
    }
  }

  lemma {:induction false} SplitOnAbsent(b: string, c: char)
    requires c !in b
    ensures SplitOn(b, c) == [b]
  {
    if |b| > 0 {
      SplitOnAbsent(b[1..], c);
      assert [b[0]] + b[1..] == b;
    }
  }

  lemma {:induction false} SplitOnFirst(a: string, b: string, c: char)
    requires c !in a
    ensures SplitOn(a + [c] + b, c) == [a] + SplitOn(b, c)
  {
    var s := a + [c] + b;
    if |a| == 0 {
      assert s[1..] == b;
    } else {
      assert s[1..] == a[1..] + [c] + b;
      SplitOnFirst(a[1..], b, c);
      assert [a[0]] + a[1..] == a;
    }
  }

  /** Joining parts that do not contain `c` with `c` and splitting on `c`
      gives the parts back. */
  lemma {:induction false} SplitOnJoin(parts: seq<string>, c: char)
    requires |parts| > 0
    requires forall i :: 0 <= i < |parts| ==> c !in parts[i]
    ensures SplitOn(Join([c], parts), c) == parts
  {
    if |parts| == 1 {
      SplitOnAbsent(parts[0], c);
    } else {
      SplitOnJoin(parts[1..], c);
      SplitOnFirst(parts[0], Join([c], parts[1..]), c);
      assert [parts[0]] + parts[1..] == parts;
    }
  }

  /** `dict((key(x), x) for x in items)`: each item stored under its key, a
      later item overwriting an earlier one with the same key. */
  function ByKey<T>(items: seq<T>, key: T -> string): (m: map<string, T>)
    ensures forall k :: k in m <==> exists i :: 0 <= i < |items| && key(items[i]) == k
    decreases |items|
  {
    if items == [] then map[]
    else
      var init := items[..|items| - 1];
      var m := ByKey(init, key);
      assert forall i :: 0 <= i < |init| ==> init[i] == items[i];
      m[key(items[|items| - 1]) := items[|items| - 1]]
  }

  /** The item stored under a key is the last item with that key. */
  lemma {:induction false} ByKeyLast<T>(items: seq<T>, key: T -> string, i: nat)
    requires i < |items|
    requires forall j :: i < j < |items| ==> key(items[j]) != key(items[i])
    ensures ByKey(items, key)[key(items[i])] == items[i]
    decreases |items|
  {
    if i < |items| - 1 {
      var init := items[..|items| - 1];
      assert init[i] == items[i];
      ByKeyLast(init, key, i);
    }
  }

  // ---------------------------------------------------------------------
  // Decimal numerals

  predicate AllDigits(s: string)
  {
    forall i :: 0 <= i < |s| ==> IsDigit(s[i])
  }

  function DigitChar(d: nat): (c: char)
    requires d < 10
    ensures IsDigit(c)
  {
    ('0' as int + d) as char
  }

  function DigitValue(c: char): (d: nat)
    requires IsDigit(c)
    ensures d < 10 && DigitChar(d) == c
  {
    c as int - '0' as int
  }

  /** Python's `str(n)` for a natural number: its decimal digits, with no
      leading zero except for zero itself. */
  function Decimal(n: nat): (s: string)
    ensures |s| > 0 && AllDigits(s)
    ensures s[0] == '0' ==> s == "0"
    ensures s[|s| - 1] == DigitChar(n % 10)
  {
    var d := DigitChar(n % 10);
    if n < 10 then [d] else Decimal(n / 10) + [d]
  }

  /** Python's `int(s)` for a string of decimal digits. */
  function DecimalValue(s: string): nat
    requires AllDigits(s)
  {
    if s == [] then 0 else DecimalValue(s[..|s| - 1]) * 10 + DigitValue(s[|s| - 1])
  }

  /** `int(str(n)) == n`. */
  lemma {:induction false} DecimalRoundTrip(n: nat)
    ensures DecimalValue(Decimal(n)) == n
  {
    var s := Decimal(n);
    if n >= 10 {
      DecimalRoundTrip(n / 10);
      assert s[..|s| - 1] == Decimal(n / 10);
    }
  }

  /** Python's `str(i)` for an integer. */
  function IntStr(i: int): string
  {
    if i < 0 then "-" + Decimal(-i) else Decimal(i)
  }
}
