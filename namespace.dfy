/** Namespace mangling for multi-component dynamics (nineml/user/multi/namespace.py).
    A name inside a sub-component is made global by appending `'__'` and the
    sub-component's name, after escaping the sub-component name so that the
    pair can be split apart again: every run of two or more underscores in the
    namespace gains one underscore, so the escaped namespace contains no run of
    exactly two underscores, which is the delimiter. */
module Namespace {
  import opened Wrappers
  import opened Strings
  import opened Expressions

  /** A run of `n` underscores. */
  function Underscores(n: nat): (r: string)
    ensures |r| == n && forall i :: 0 <= i < n ==> r[i] == '_'
  {
    seq(n, _ => '_')
  }

  /** The length of the run of underscores that `s` starts with. */
  function LeadRun(s: string): (k: nat)
    ensures k <= |s|
    ensures forall i :: 0 <= i < k ==> s[i] == '_'
    ensures k == |s| || s[k] != '_'
  {
    if s != [] && s[0] == '_' then 1 + LeadRun(s[1..]) else 0
  }

  predicate StartsWithUnderscore(s: string) { s != [] && s[0] == '_' }
  predicate EndsWithUnderscore(s: string) { s != [] && s[|s| - 1] == '_' }

  /** No two adjacent underscores anywhere in `s`. */
  predicate NoDoubleUnderscore(s: string)
  {
    forall i :: 0 <= i < |s| - 1 ==> !(s[i] == '_' && s[i + 1] == '_')
  }

  /** The escaping that append_namespace's comments describe: one more
      underscore in every maximal run of two or more underscores. */
  function Escape(s: string): string
    decreases |s|
  {
    if s == [] then []
    else if s[0] != '_' then [s[0]] + Escape(s[1..])
    else
      var k := LeadRun(s);
      (if k >= 2 then s[..k] + "_" else s[..k]) + Escape(s[k..])
  }

  /** The reverse of `Escape`: one underscore fewer in every maximal run of
      three or more underscores. */
  function Unescape(s: string): string
    decreases |s|
  {
    if s == [] then []
    else if s[0] != '_' then [s[0]] + Unescape(s[1..])
    else
      var k := LeadRun(s);
      (if k >= 3 then s[..k - 1] else s[..k]) + Unescape(s[k..])
  }

  /** `[x + parts[0]] + parts[1..]`: glue `x` onto the first part. */
  function Prepend(x: string, parts: seq<string>): (r: seq<string>)
    requires parts != []
    ensures |r| == |parts| && r[0] == x + parts[0] && r[1..] == parts[1..]
  {
    [x + parts[0]] + parts[1..]
  }

  /** `re.split(r'(?<!_)__(?!_)', s)`: split at every maximal run of exactly
      two underscores. */
  function Split(s: string): (parts: seq<string>)
    ensures parts != []
    decreases |s|
  {
    if s == [] then [[]]
    else if s[0] != '_' then Prepend([s[0]], Split(s[1..]))
    else
      var k := LeadRun(s);
      if k == 2 then [[]] + Split(s[2..]) else Prepend(s[..k], Split(s[k..]))
  }

  /** append_namespace(identifier, namespace), as its comments describe it. */
  function AppendNamespace(identifier: string, namespace: string): (r: string)
    ensures |r| >= |identifier| + 2
    ensures r[..|identifier|] == identifier
    ensures r[|identifier|..|identifier| + 2] == "__"
    ensures Split(r[|identifier| + 2..]) == [r[|identifier| + 2..]]
    ensures Unescape(r[|identifier| + 2..]) == namespace
  {
    SplitEscape(namespace);
    UnescapeEscape(namespace);
    var r := identifier + "__" + Escape(namespace);
    assert r[|identifier| + 2..] == Escape(namespace);
    r
  }

  /** split_namespace(s) with the unescaping the comments describe: the last
      part is the namespace, the others are re-joined with `'__'`. */
  function SplitNamespace(s: string): (string, string)
  {
    var parts := Split(s);
    (Join("__", parts[..|parts| - 1]), Unescape(parts[|parts| - 1]))
  }

  // ---------------------------------------------------------------------
  // Lemmas about the escaping and the splitting
  // ---------------------------------------------------------------------

  lemma {:induction false} LeadRunOfRun(u: string, t: string)
    requires forall i :: 0 <= i < |u| ==> u[i] == '_'
    requires !StartsWithUnderscore(t)
    ensures LeadRun(u + t) == |u|
  {
    if u == [] {
      assert u + t == t;
    } else {
      assert (u + t)[1..] == u[1..] + t;
      LeadRunOfRun(u[1..], t);
    }
  }

  lemma {:induction false} LeadRunOfPrefix(a: string, t: string)
    requires LeadRun(a) < |a|
    ensures LeadRun(a + t) == LeadRun(a)
  {
    if a[0] == '_' {
      assert (a + t)[1..] == a[1..] + t;
      LeadRunOfPrefix(a[1..], t);
    }
  }

  /** Escaping keeps whether the name starts with an underscore. */
  lemma EscapeFirst(s: string)
    ensures StartsWithUnderscore(Escape(s)) <==> StartsWithUnderscore(s)
  {
  }

  /** Escaping keeps the last character when it is not an underscore. */
  lemma {:induction false} EscapeLast(s: string)
    requires s != [] && !EndsWithUnderscore(s)
    ensures Escape(s) != [] && Escape(s)[|Escape(s)| - 1] == s[|s| - 1]
    decreases |s|
  {
    if s[0] != '_' {
      if |s| > 1 { EscapeLast(s[1..]); }
    } else {
      var k := LeadRun(s);
      EscapeLast(s[k..]);
    }
  }

  /** A name without adjacent underscores is its own escape. */
  lemma {:induction false} EscapeNoDouble(s: string)
    requires NoDoubleUnderscore(s)
    ensures Escape(s) == s
    decreases |s|
  {
    if s != [] {
      if s[0] != '_' {
        EscapeNoDouble(s[1..]);
      } else {
        var k := LeadRun(s);
        assert k == 1;
        EscapeNoDouble(s[1..]);
        assert s == s[..1] + s[1..];
      }
    }
  }

  /** Unescaping a run of underscores followed by something else. */
  lemma UnescapeRun(u: string, t: string)
    requires u != [] && forall i :: 0 <= i < |u| ==> u[i] == '_'
    requires !StartsWithUnderscore(t)
    ensures Unescape(u + t) == (if |u| >= 3 then u[..|u| - 1] else u) + Unescape(t)
  {
    LeadRunOfRun(u, t);
    var j := |u|;
    assert (u + t)[j..] == t;
    assert (u + t)[..j] == u;
    if j >= 3 {
      assert (u + t)[..j - 1] == u[..j - 1];
    }
  }

  /** One step of `UnescapeEscape`: the leading run of underscores. */
  lemma UnescapeEscapeRun(s: string)
    requires StartsWithUnderscore(s)
    requires Unescape(Escape(s[LeadRun(s)..])) == s[LeadRun(s)..]
    ensures Unescape(Escape(s)) == s
  {
    var k := LeadRun(s);
    assert s == s[..k] + s[k..];
    var e := Escape(s[k..]);
    EscapeFirst(s[k..]);
    if k >= 2 {
      var chunk := s[..k] + "_";
      assert Escape(s) == chunk + e;
      forall i | 0 <= i < |chunk| ensures chunk[i] == '_' {
        if i < k { assert chunk[i] == s[i]; }
      }
      UnescapeRun(chunk, e);
      assert chunk[..|chunk| - 1] == s[..k];
      assert Unescape(Escape(s)) == s[..k] + s[k..];
    } else {
      assert Escape(s) == s[..k] + e;
      UnescapeRun(s[..k], e);
      assert Unescape(Escape(s)) == s[..k] + s[k..];
    }
  }

  /** One step of `UnescapeEscape`: a character other than an underscore. */
  lemma UnescapeEscapeChar(s: string)
    requires s != [] && s[0] != '_'
    requires Unescape(Escape(s[1..])) == s[1..]
    ensures Unescape(Escape(s)) == s
  {
    var e := Escape(s[1..]);
    assert ([s[0]] + e)[1..] == e;
    assert s == [s[0]] + s[1..];
  }

  /** Unescaping undoes escaping. */
  lemma {:induction false} UnescapeEscape(s: string)
    ensures Unescape(Escape(s)) == s
    decreases |s|
  {
    if s != [] {
      if s[0] != '_' {
        UnescapeEscape(s[1..]);
        UnescapeEscapeChar(s);
      } else {
        UnescapeEscape(s[LeadRun(s)..]);
        UnescapeEscapeRun(s);
      }
    }
  }

  /** An escaped namespace contains no delimiter. */
  lemma {:induction false} SplitEscape(s: string)
    ensures Split(Escape(s)) == [Escape(s)]
    decreases |s|
  {
    if s != [] {
      if s[0] != '_' {
        var e := Escape(s[1..]);
        assert ([s[0]] + e)[1..] == e;
        SplitEscape(s[1..]);
      } else {
        var k := LeadRun(s);
        var chunk := if k >= 2 then s[..k] + "_" else s[..k];
        var e := Escape(s[k..]);
        EscapeFirst(s[k..]);
        LeadRunOfRun(chunk, e);
        var j := |chunk|;
        assert (chunk + e)[j..] == e;
        assert (chunk + e)[..j] == chunk;
        SplitEscape(s[k..]);
      }
    }
  }

  lemma JoinPrepend(sep: string, x: string, parts: seq<string>)
    requires parts != []
    ensures Join(sep, Prepend(x, parts)) == x + Join(sep, parts)
  {
  }

  /** Re-joining the parts with `'__'` gives back the split name. */
  lemma {:induction false} JoinSplit(s: string)
    ensures Join("__", Split(s)) == s
    decreases |s|
  {
    if s != [] {
      if s[0] != '_' {
        JoinSplit(s[1..]);
        JoinPrepend("__", [s[0]], Split(s[1..]));
        assert s == [s[0]] + s[1..];
      } else {
        var k := LeadRun(s);
        JoinSplit(s[k..]);
        if k == 2 {
          var p := Split(s[2..]);
          assert ([[]] + p)[1..] == p;
          assert s[..2] == "__";
          assert s == s[..2] + s[2..];
        } else {
          JoinPrepend("__", s[..k], Split(s[k..]));
          assert s == s[..k] + s[k..];
        }
      }
    }
  }

  /** Gluing onto the first part commutes with appending more parts. */
  lemma PrependAppend(x: string, p: seq<string>, q: seq<string>)
    requires p != []
    ensures Prepend(x, p + q) == Prepend(x, p) + q
  {
    assert (p + q)[0] == p[0];
    assert (p + q)[1..] == p[1..] + q;
  }

  /** The delimiter at the very start splits off an empty part. */
  lemma SplitConcatEmpty(b: string)
    requires !StartsWithUnderscore(b)
    ensures Split("__" + b) == [[]] + Split(b)
  {
    var s := "__" + b;
    LeadRunOfRun("__", b);
    assert s[2..] == b;
  }

  /** The step of `SplitConcat` for a name starting with another character. */
  lemma SplitConcatChar(a: string, b: string)
    requires a != [] && a[0] != '_'
    requires Split(a[1..] + "__" + b) == Split(a[1..]) + Split(b)
    ensures Split(a + "__" + b) == Split(a) + Split(b)
  {
    var s := a + "__" + b;
    assert s[0] == a[0];
    assert s[1..] == a[1..] + "__" + b;
    PrependAppend([a[0]], Split(a[1..]), Split(b));
  }

  /** How `Split` treats a leading run of underscores. */
  lemma SplitRun(s: string)
    requires s != [] && s[0] == '_'
    ensures LeadRun(s) == 2 ==> Split(s) == [[]] + Split(s[2..])
    ensures LeadRun(s) != 2 ==> Split(s) == Prepend(s[..LeadRun(s)], Split(s[LeadRun(s)..]))
  {
  }

  /** Cutting `a + "__" + b` inside `a`. */
  lemma SliceConcat(a: string, b: string, k: nat)
    requires k <= |a|
    ensures (a + "__" + b)[k..] == a[k..] + "__" + b
    ensures (a + "__" + b)[..k] == a[..k]
  {
  }

  /** The step of `SplitConcat` for a name starting with a run of
      underscores that stops inside it. */
  lemma SplitConcatRun(a: string, b: string)
    requires a != [] && a[0] == '_' && LeadRun(a) < |a|
    requires Split(a[LeadRun(a)..] + "__" + b) == Split(a[LeadRun(a)..]) + Split(b)
    ensures Split(a + "__" + b) == Split(a) + Split(b)
  {
    var k := LeadRun(a);
    LeadRunOfPrefix(a, "__" + b);
    assert a + "__" + b == a + ("__" + b);
    SliceConcat(a, b, k);
    SplitRun(a);
    SplitRun(a + "__" + b);
    if k != 2 {
      PrependAppend(a[..k], Split(a[k..]), Split(b));
    }
  }

  /** A delimiter between a name that does not end and a name that does not
      start with an underscore splits exactly there. */
  lemma {:induction false} SplitConcat(a: string, b: string)
    requires !EndsWithUnderscore(a) && !StartsWithUnderscore(b)
    ensures Split(a + "__" + b) == Split(a) + Split(b)
    decreases |a|
  {
    if a == [] {
      SplitConcatEmpty(b);
      assert a + "__" + b == "__" + b;
    } else if a[0] != '_' {
      SplitConcat(a[1..], b);
      SplitConcatChar(a, b);
    } else {
      var k := LeadRun(a);
      assert k < |a|;
      SplitConcat(a[k..], b);
      SplitConcatRun(a, b);
    }
  }

  /** A namespace without underscores is not changed by escaping. */
  lemma {:induction false} EscapePlain(s: string)
    requires '_' !in s
    ensures Escape(s) == s
  {
    if s != [] {
      assert s[0] != '_';
      EscapePlain(s[1..]);
      assert [s[0]] + s[1..] == s;
    }
  }

  /** The round trip that append_namespace's and split_namespace's docstrings
      promise, for identifiers that do not end and namespaces that do not
      start with an underscore. */
  lemma SplitAppendRoundTrip(identifier: string, namespace: string)
    requires !EndsWithUnderscore(identifier) && !StartsWithUnderscore(namespace)
    ensures SplitNamespace(AppendNamespace(identifier, namespace)) == (identifier, namespace)
  {
    EscapeFirst(namespace);
    SplitConcat(identifier, Escape(namespace));
    SplitEscape(namespace);
    JoinSplit(identifier);
    UnescapeEscape(namespace);
    var parts := Split(identifier) + [Escape(namespace)];
    assert parts[..|parts| - 1] == Split(identifier);
  }

  /** Namespacing twice and splitting once splits off only the outer
      namespace. */
  lemma NestedSplitsOutermost(identifier: string, inner: string, outer: string)
    requires !EndsWithUnderscore(identifier)
    requires inner != [] && !StartsWithUnderscore(inner) && !EndsWithUnderscore(inner)
    requires !StartsWithUnderscore(outer)
    ensures SplitNamespace(AppendNamespace(AppendNamespace(identifier, inner), outer))
         == (AppendNamespace(identifier, inner), outer)
  {
    EscapeLast(inner);
    var once := AppendNamespace(identifier, inner);
    assert once == identifier + "__" + Escape(inner);
    SplitAppendRoundTrip(once, outer);
  }

  /** Two names namespaced into the same namespace stay distinct. */
  lemma AppendNamespaceInjective(id1: string, ns1: string, id2: string, ns2: string)
    requires !EndsWithUnderscore(id1) && !StartsWithUnderscore(ns1)
    requires !EndsWithUnderscore(id2) && !StartsWithUnderscore(ns2)
    requires AppendNamespace(id1, ns1) == AppendNamespace(id2, ns2)
    ensures id1 == id2 && ns1 == ns2
  {
    SplitAppendRoundTrip(id1, ns1);
    SplitAppendRoundTrip(id2, ns2);
  }

  /** A name that is one part on its own: non-empty, with no underscore at
      either end and no run of exactly two underscores. */
  predicate Plain(s: string)
  {
    s != [] && !StartsWithUnderscore(s) && !EndsWithUnderscore(s) && Split(s) == [s]
  }

  /** Plain parts joined by `'__'` split back into the same parts. */
  lemma {:induction false} SplitJoin(parts: seq<string>)
    requires parts != []
    requires forall i :: 0 <= i < |parts| ==> Plain(parts[i])
    ensures Split(Join("__", parts)) == parts
    ensures !StartsWithUnderscore(Join("__", parts)) && !EndsWithUnderscore(Join("__", parts))
  {
    if |parts| > 1 {
      SplitJoin(parts[1..]);
      var rest := Join("__", parts[1..]);
      assert Join("__", parts) == parts[0] + "__" + rest;
      SplitConcat(parts[0], rest);
      assert parts == [parts[0]] + parts[1..];
    }
  }

  // ---------------------------------------------------------------------
  // Composite names
  // ---------------------------------------------------------------------

  /** make_regime_name: the escaped regime names in the order of their
      sorted sub-component keys, joined by `'_'`, then `'_regime'`. */
  function RegimeName(subRegimes: map<string, string>): string
  {
    var keys := SortedKeys(subRegimes.Keys);
    Join("_", seq(|keys|, i requires 0 <= i < |keys| => Escape(subRegimes[keys[i]]))) + "_regime"
  }

  /** With one sub-component the name is its escaped regime name plus
      `'_regime'`; with two, the regime of the smaller key comes first,
      whatever order the map was built in. */
  lemma RegimeNameOrder(k1: string, r1: string, k2: string, r2: string)
    ensures RegimeName(map[k1 := r1]) == Escape(r1) + "_regime"
    ensures Below(k1, k2) && k1 != k2 ==>
      RegimeName(map[k1 := r1, k2 := r2]) == Escape(r1) + "_" + Escape(r2) + "_regime"
  {
    var one := SortedKeys({k1});
    assert one[0] in {k1};
    var names := seq(|one|, i requires 0 <= i < |one| => Escape(map[k1 := r1][one[i]]));
    assert names == [Escape(r1)];
    if Below(k1, k2) && k1 != k2 {
      var m := map[k1 := r1, k2 := r2];
      assert m.Keys == {k1, k2};
      var two := SortedKeys({k1, k2});
      assert two[0] in {k1, k2} && two[1] in {k1, k2};
      if two[0] == k2 {
        BelowAntisymmetric(k1, k2);
      }
      assert two == [k1, k2];
      var names2 := seq(|two|, i requires 0 <= i < |two| => Escape(m[two[i]]));
      assert names2 == [Escape(r1), Escape(r2)];
      assert Join("_", names2) == Escape(r1) + "_" + Escape(r2) by {
        assert names2[1..] == [Escape(r2)];
      }
    }
  }

  /** For any number of sub-components: listing the keys in ascending
      order, the name is their escaped regime names in that order, joined
      by `'_'`, then `'_regime'`. */
  lemma RegimeNameSorted(subRegimes: map<string, string>, keys: seq<string>)
    requires StrictlySorted(keys)
    requires forall k :: k in keys <==> k in subRegimes
    ensures RegimeName(subRegimes) ==
            Join("_", seq(|keys|, i requires 0 <= i < |keys| => Escape(subRegimes[keys[i]]))) + "_regime"
  {
    SortedUnique(SortedKeys(subRegimes.Keys), keys);
  }

  /** The role if there is one, otherwise the name. */
  function RoleOrName(role: Option<string>, name: string): string
  {
    if role.Some? then role.value else name
  }

  /** make_delay_trigger_name: sender, send port, receiver and receive port,
      each escaped, joined by `'_'`, then `'_delay_trigger'`. */
  function DelayTriggerName(senderRole: Option<string>, senderName: string, sendPort: string,
                            receiverRole: Option<string>, receiverName: string, receivePort: string): string
  {
    var parts := [RoleOrName(senderRole, senderName), sendPort, RoleOrName(receiverRole, receiverName), receivePort];
    Join("_", seq(4, i requires 0 <= i < 4 => Escape(parts[i]))) + "_delay_trigger"
  }

  /** `sep.join` of four parts. */
  lemma JoinFour(sep: string, a: string, b: string, c: string, d: string)
    ensures Join(sep, [a, b, c, d]) == a + sep + b + sep + c + sep + d
  {
    JoinCons(sep, c, [d]);
    assert [c] + [d] == [c, d];
    JoinCons(sep, b, [c, d]);
    assert [b] + [c, d] == [b, c, d];
    JoinCons(sep, a, [b, c, d]);
    assert [a] + [b, c, d] == [a, b, c, d];
  }

  /** For names without adjacent underscores the delay trigger's name is the
      four parts in order, the role preferred over the name on each side. */
  lemma DelayTriggerNameParts(senderRole: Option<string>, senderName: string, sendPort: string,
                              receiverRole: Option<string>, receiverName: string, receivePort: string)
    requires NoDoubleUnderscore(RoleOrName(senderRole, senderName)) && NoDoubleUnderscore(sendPort)
    requires NoDoubleUnderscore(RoleOrName(receiverRole, receiverName)) && NoDoubleUnderscore(receivePort)
    ensures DelayTriggerName(senderRole, senderName, sendPort, receiverRole, receiverName, receivePort)
         == (if senderRole.Some? then senderRole.value else senderName) + "_" + sendPort + "_"
            + (if receiverRole.Some? then receiverRole.value else receiverName) + "_" + receivePort
            + "_delay_trigger"
  {
    var parts := [RoleOrName(senderRole, senderName), sendPort, RoleOrName(receiverRole, receiverName), receivePort];
    forall i | 0 <= i < 4 ensures Escape(parts[i]) == parts[i] {
      EscapeNoDouble(parts[i]);
    }
    var escaped := seq(4, i requires 0 <= i < 4 => Escape(parts[i]));
    assert escaped == parts;
    JoinFour("_", parts[0], parts[1], parts[2], parts[3]);
  }

  // ---------------------------------------------------------------------
  // Wrapped elements and expressions of a sub-component
  // ---------------------------------------------------------------------

  /** `_NamespaceNamed.name`: the element's name in the global namespace. */
  function WrappedName(subComponent: string, elementName: string): string
  {
    AppendNamespace(elementName, subComponent)
  }

  /** `_NamespaceExpression.rhs`: every free symbol moved into the namespace. */
  function WrappedRhs(subComponent: string, rhs: Expr): Expr
  {
    MapSymbols(rhs, s => AppendNamespace(s, subComponent))
  }

  /** Every free symbol of the wrapped right-hand side is a free symbol of
      the original moved into the namespace, and each one is there. */
  lemma WrappedRhsSymbols(subComponent: string, rhs: Expr)
    ensures forall x :: x in FreeSymbols(WrappedRhs(subComponent, rhs)) <==>
      exists s :: s in FreeSymbols(rhs) && AppendNamespace(s, subComponent) == x
    ensures Functions(WrappedRhs(subComponent, rhs)) == Functions(rhs)
  {
    MapSymbolsFree(rhs, s => AppendNamespace(s, subComponent));
  }

  /** The mutators of a wrapped expression. */
  datatype Mutator = SetRhs | RhsNameTransform | RhsSubstituted | Subs | RhsStrSubstituted | LhsNameTransform

  /** Every mutator of a wrapped expression refuses: renaming the lhs is not
      implemented, everything else is immutable. */
  function MutateWrapped(m: Mutator): (r: Result<()>)
    ensures r.Err?
    ensures r.error == ImmutableError <==> m != LhsNameTransform
    ensures r.error == NotImplemented <==> m == LhsNameTransform
  {
    if m == LhsNameTransform then Err(NotImplemented) else Err(ImmutableError)
  }

  // ---------------------------------------------------------------------
  // The regular-expression substitutions as written
  // ---------------------------------------------------------------------

  /** Where the greedy match of `(.*)(__+)()` ends: just past the last pair
      of adjacent underscores. */
  function LastDoubleEnd(s: string): (r: Option<nat>)
    ensures r.None? <==> NoDoubleUnderscore(s)
    ensures r.Some? ==> 2 <= r.value <= |s| && s[r.value - 2] == '_' && s[r.value - 1] == '_'
    ensures r.Some? ==> NoDoubleUnderscore(s[r.value - 1..])
  {
    if |s| < 2 then None
    else if s[|s| - 2] == '_' && s[|s| - 1] == '_' then Some(|s|)
    else
      var r := LastDoubleEnd(s[..|s| - 1]);
      NoDoubleSnoc(s);
      if r.Some? then
        NoDoubleExtend(s, r.value);
        r
      else r
  }

  /** Adjacent underscores in `s` are either in all but its last character
      or are its last two. */
  lemma NoDoubleSnoc(s: string)
    requires |s| >= 2
    ensures NoDoubleUnderscore(s) <==>
      NoDoubleUnderscore(s[..|s| - 1]) && !(s[|s| - 2] == '_' && s[|s| - 1] == '_')
  {
    var p := s[..|s| - 1];
    assert forall i :: 0 <= i < |p| ==> p[i] == s[i];
  }

  /** A tail without adjacent underscores stays so when a character that
      makes no pair is appended. */
  lemma NoDoubleExtend(s: string, e: nat)
    requires 2 <= e < |s|
    requires NoDoubleUnderscore(s[..|s| - 1][e - 1..])
    requires !(s[|s| - 2] == '_' && s[|s| - 1] == '_')
    ensures NoDoubleUnderscore(s[e - 1..])
  {
    var t := s[e - 1..];
    var p := s[..|s| - 1][e - 1..];
    assert |p| == |t| - 1;
    forall i | 0 <= i < |t| - 1
      ensures !(t[i] == '_' && t[i + 1] == '_')
    {
      if i + 1 < |p| {
        assert t[i] == p[i] && t[i + 1] == p[i + 1];
      } else {
        assert t[i] == s[|s| - 2] && t[i + 1] == s[|s| - 1];
      }
    }
  }

  /** `multiple_underscore_re.sub(r'/1/2_/3', ns)`: the replacement is taken
      literally, so everything up to the end of the last run of underscores
      is replaced by the text `/1/2_/3`. */
  function EscapeAsWritten(s: string): string
  {
    match LastDoubleEnd(s)
    case None => s
    case Some(e) => "/1/2_/3" + s[e..]
  }

  function AppendNamespaceAsWritten(identifier: string, namespace: string): string
  {
    identifier + "__" + EscapeAsWritten(namespace)
  }

  /** `more_than_double_underscore_re.sub('_', comp)`: every run of three or
      more underscores collapses to a single one. */
  function UnescapeAsWritten(s: string): string
    decreases |s|
  {
    if s == [] then []
    else if s[0] != '_' then [s[0]] + UnescapeAsWritten(s[1..])
    else
      var k := LeadRun(s);
      (if k >= 3 then "_" else s[..k]) + UnescapeAsWritten(s[k..])
  }

  /** As written, two different namespaces give the same global name, so no
      split can recover the namespace. */
  lemma AppendAsWrittenCollides()
    ensures AppendNamespaceAsWritten("a", "b__c") == AppendNamespaceAsWritten("a", "x__c") == "a__/1/2_/3c"
  {
    EscapeAsWrittenDropsPrefix('b');
    EscapeAsWrittenDropsPrefix('x');
    assert "b__c" == ['b', '_', '_', 'c'] && "x__c" == ['x', '_', '_', 'c'];
  }

  /** As written, escaping `x__c` keeps only the `c` after the run. */
  lemma EscapeAsWrittenDropsPrefix(x: char)
    requires x != '_'
    ensures EscapeAsWritten([x, '_', '_', 'c']) == "/1/2_/3c"
  {
    var s := [x, '_', '_', 'c'];
    assert s[..3] == [x, '_', '_'];
    assert LastDoubleEnd(s[..3]) == Some(3);
    assert LastDoubleEnd(s) == Some(3);
    assert s[3..] == "c";
  }

  /** As written, unescaping collapses the escaped "b___c" of "b__c" to "b_c". */
  lemma UnescapeAsWrittenLosesUnderscore()
    ensures Escape("b__c") == "b___c"
    ensures UnescapeAsWritten("b___c") == "b_c"
  {
    assert "b__c"[1..] == "__c";
    assert LeadRun("__c") == 2 by { assert "__c"[1..] == "_c"; assert "_c"[1..] == "c"; }
    assert "__c"[..2] == "__" && "__c"[2..] == "c";
    assert Escape("c") == "c" by { assert "c"[1..] == []; }
    assert "b___c"[1..] == "___c";
    assert LeadRun("___c") == 3 by {
      assert "___c"[1..] == "__c"; assert "__c"[1..] == "_c"; assert "_c"[1..] == "c";
    }
    assert "___c"[3..] == "c";
    assert UnescapeAsWritten("c") == "c" by { assert "c"[1..] == []; }
  }
}
