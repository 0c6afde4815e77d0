/** The hierarchical annotations attached to NineML objects
    (nineml/annotations.py).  An annotations block maps (name, namespace) keys
    to lists of branches; each branch carries string attributes and, in turn,
    its own keyed lists of sub-branches.  The root block only accepts explicit
    (name, namespace) keys, while inside a branch a bare name inherits the
    branch's namespace.

    Branches are modelled as values: the recursive updates the source makes on
    nested objects become functions returning the updated tree, and the root
    block is a class whose methods reassign its `branches` field. */
module AnnotationTree {
  import opened Wrappers
  import Strings

  /** A (name, namespace) pair. */
  type Key = (string, string)

  /** A key as a caller writes it: a bare name or an explicit pair. */
  datatype KeyArg = Plain(name: string) | Qualified(name: string, ns: string)

  /** A value handed to `set`; it is stored as its string rendering. */
  datatype Value = Text(text: string) | Integer(number: int)

  /** The branches stored under one key, in insertion order.  (Wrapping the
      list in a datatype lets recursion descend through the map of children.) */
  datatype KeyBranches = KeyBranches(list: seq<Branch>)

  /** An `_AnnotationsBranch`: its name, namespace, attributes, sub-branches
      and optional text body. */
  datatype Branch = Branch(name: string, ns: string, attr: map<string, string>,
                           branches: map<Key, KeyBranches>, body: Option<string>)

  type Branches = map<Key, KeyBranches>

  /** Where a block of branches sits: at the root, or inside a branch whose
      namespace is `ns`. */
  datatype Scope = Root | Inside(ns: string)

  /** A bare name qualified by an enclosing namespace. */
  function Qualify(ns: string, k: KeyArg): Key
  {
    match k
    case Plain(n) => (n, ns)
    case Qualified(n, s) => (n, s)
  }

  /** `_parse_key`: the root demands explicit pairs, a branch fills in its own
      namespace. */
  function ParseKey(scope: Scope, k: KeyArg): (r: Result<Key>)
    ensures r.Err? <==> scope.Root? && k.Plain?
    ensures r.Err? ==> r.error == XmlError
    ensures r.Ok? ==> r.value.0 == k.name
    ensures r.Ok? && k.Qualified? ==> r.value.1 == k.ns
    ensures r.Ok? && k.Plain? ==> r.value.1 == scope.ns
  {
    match scope
    case Root => if k.Plain? then Err(XmlError) else Ok((k.name, k.ns))
    case Inside(ns) => Ok(Qualify(ns, k))
  }

  /** A branch freshly created for a key. */
  function NewBranch(key: Key): Branch
  {
    Branch(key.0, key.1, map[], map[], None)
  }

  /** `_AnnotationsBranch.empty`: no sub-branches and no attributes (the body
      is not consulted). */
  predicate Empty(b: Branch)
  {
    b.branches == map[] && b.attr == map[]
  }

  /** Python's `str` of a value. */
  function Str(v: Value): string
  {
    match v
    case Text(s) => s
    case Integer(n) => Strings.IntStr(n)
  }

  // ---------------------------------------------------------------------
  // Reading

  /** Reference lookup that tells an absent attribute (`Ok(None)`) apart from
      a path that cannot be followed (`Err`). */
  function LookupIn(bs: Branches, scope: Scope, path: seq<KeyArg>, attr: string): Result<Option<string>>
    requires |path| > 0
    decreases |path|, 0
  {
    var key :- ParseKey(scope, path[0]);
    if key !in bs then Ok(None)
    else if |bs[key].list| != 1 then Err(NameError)
    else BranchLookup(bs[key].list[0], path[1..], attr)
  }

  function BranchLookup(b: Branch, path: seq<KeyArg>, attr: string): Result<Option<string>>
    decreases |path|, 1
  {
    if path == [] then Ok(if attr in b.attr then Some(b.attr[attr]) else None)
    else LookupIn(b.branches, Inside(b.ns), path, attr)
  }

  /** `BaseAnnotations.get`: follow the single branch under each key, then read
      the attribute. */
  function GetIn(bs: Branches, scope: Scope, path: seq<KeyArg>, attr: string, default: Option<Value>): (r: Result<Value>)
    requires |path| > 0
    ensures r.Err? ==> r.error == NameError || (r.error == XmlError && scope.Root? && path[0].Plain?)
    decreases |path|, 0
  {
    var key :- ParseKey(scope, path[0]);
    if key in bs then
      if |bs[key].list| == 1 then BranchGet(bs[key].list[0], path[1..], attr, default)
      else Err(NameError)
    else if default.Some? then Ok(default.value)
    else Err(NameError)
  }

  /** `_AnnotationsBranch.get`. */
  function BranchGet(b: Branch, path: seq<KeyArg>, attr: string, default: Option<Value>): (r: Result<Value>)
    ensures r.Err? ==> r.error == NameError
    decreases |path|, 1
  {
    if path == [] then
      if attr in b.attr then Ok(Text(b.attr[attr]))
      else if default.Some? then Ok(default.value)
      else Err(NameError)
    else GetIn(b.branches, Inside(b.ns), path, attr, default)
  }

  /** `__contains__`. */
  function ContainsIn(bs: Branches, scope: Scope, k: KeyArg): (r: Result<bool>)
    ensures r.Ok? ==> ParseKey(scope, k).Ok? && (r.value <==> ParseKey(scope, k).value in bs)
    ensures r.Err? <==> ParseKey(scope, k).Err?
  {
    var key :- ParseKey(scope, k);
    Ok(key in bs)
  }

  /** `__getitem__`: the list of branches under a key. */
  function GetItemIn(bs: Branches, scope: Scope, k: KeyArg): (r: Result<seq<Branch>>)
    ensures r.Ok? <==> ContainsIn(bs, scope, k) == Ok(true)
    ensures r.Ok? ==> ParseKey(scope, k).Ok? && r.value == bs[ParseKey(scope, k).value].list
    ensures r.Err? ==> r.error == (if scope.Root? && k.Plain? then XmlError else NameError)
  {
    var key :- ParseKey(scope, k);
    if key in bs then Ok(bs[key].list) else Err(NameError)
  }

  /** The number of branches at the end of a path, following the single branch
      under every intermediate key; an absent key counts as none. */
  function CountIn(bs: Branches, scope: Scope, path: seq<KeyArg>): Result<nat>
    requires |path| > 0
    decreases |path|
  {
    var key :- ParseKey(scope, path[0]);
    var kb := if key in bs then bs[key].list else [];
    if |path| == 1 then Ok(|kb|)
    else if kb == [] then Ok(0)
    else if |kb| > 1 then Err(NameError)
    else CountIn(kb[0].branches, Inside(kb[0].ns), path[1..])
  }

  // ---------------------------------------------------------------------
  // Writing

  /** `BaseAnnotations.set`: reuse the single branch under the key or create
      one, then continue in it. */
  function SetIn(bs: Branches, scope: Scope, path: seq<KeyArg>, attr: string, v: Value): (r: Result<Branches>)
    requires |path| > 0
    ensures r.Err? ==> r.error == NameError || (r.error == XmlError && scope.Root? && path[0].Plain?)
    ensures r.Ok? ==> ParseKey(scope, path[0]).Ok? && r.value.Keys == bs.Keys + {ParseKey(scope, path[0]).value}
    ensures r.Ok? ==> ParseKey(scope, path[0]).Ok? && forall k :: k in bs && k != ParseKey(scope, path[0]).value ==> r.value[k] == bs[k]
    decreases |path|, 0
  {
    var key :- ParseKey(scope, path[0]);
    var kb := if key in bs then bs[key].list else [];
    if |kb| > 1 then Err(NameError)
    else
      var b := if |kb| == 1 then kb[0] else NewBranch(key);
      var b' :- BranchSet(b, path[1..], attr, v);
      Ok(bs[key := KeyBranches([b'])])
  }

  /** `_AnnotationsBranch.set`: with no further keys the attribute is stored
      as a string. */
  function BranchSet(b: Branch, path: seq<KeyArg>, attr: string, v: Value): (r: Result<Branch>)
    ensures r.Err? ==> r.error == NameError
    ensures r.Ok? ==> r.value.name == b.name && r.value.ns == b.ns && r.value.body == b.body
    decreases |path|, 1
  {
    if path == [] then Ok(b.(attr := b.attr[attr := Str(v)]))
    else
      var bs :- SetIn(b.branches, Inside(b.ns), path, attr, v);
      Ok(b.(branches := bs))
  }

  /** `BaseAnnotations.delete`: a missing key is ignored, and a branch left
      empty is removed from its parent. */
  function DeleteIn(bs: Branches, scope: Scope, path: seq<KeyArg>, attr: string): (r: Result<Branches>)
    requires |path| > 0
    ensures r.Err? ==> r.error == NameError || (r.error == XmlError && scope.Root? && path[0].Plain?)
    ensures r.Ok? ==> r.value.Keys <= bs.Keys
    ensures r.Ok? ==> ParseKey(scope, path[0]).Ok? && forall k :: k in bs && k != ParseKey(scope, path[0]).value ==> k in r.value && r.value[k] == bs[k]
    decreases |path|, 0
  {
    var key :- ParseKey(scope, path[0]);
    if key !in bs then Ok(bs)
    else if |bs[key].list| != 1 then Err(NameError)
    else
      var b :- BranchDelete(bs[key].list[0], path[1..], attr);
      if Empty(b) then Ok(bs - {key}) else Ok(bs[key := KeyBranches([b])])
  }

  /** `_AnnotationsBranch.delete`: deleting an absent attribute is an error. */
  function BranchDelete(b: Branch, path: seq<KeyArg>, attr: string): (r: Result<Branch>)
    ensures r.Err? ==> r.error == NameError
    ensures path == [] ==> (r.Ok? <==> attr in b.attr)
    decreases |path|, 1
  {
    if path == [] then
      if attr in b.attr then Ok(b.(attr := b.attr - {attr})) else Err(NameError)
    else
      var bs :- DeleteIn(b.branches, Inside(b.ns), path, attr);
      Ok(b.(branches := bs))
  }

  /** `BaseAnnotations.add`: with no further keys a new branch is appended
      under the key; otherwise the key must hold at most one branch (one is
      created if it holds none) and the rest of the path is added inside it.
      The branch returned is the one at this level. */
  function AddIn(bs: Branches, scope: Scope, path: seq<KeyArg>): (r: Result<(Branches, Branch)>)
    requires |path| > 0
    ensures r.Err? ==> r.error == NameError || (r.error == XmlError && scope.Root? && path[0].Plain?)
    ensures r.Ok? ==> ParseKey(scope, path[0]).Ok? && r.value.0.Keys == bs.Keys + {ParseKey(scope, path[0]).value}
    ensures r.Ok? ==> ParseKey(scope, path[0]).Ok? && forall k :: k in bs && k != ParseKey(scope, path[0]).value ==> r.value.0[k] == bs[k]
    ensures r.Ok? && |path| == 1 ==> ParseKey(scope, path[0]).Ok? && r.value.1 == NewBranch(ParseKey(scope, path[0]).value)
    decreases |path|
  {
    var key :- ParseKey(scope, path[0]);
    var kb := if key in bs then bs[key].list else [];
    if |path| == 1 then
      Ok((bs[key := KeyBranches(kb + [NewBranch(key)])], NewBranch(key)))
    else if |kb| > 1 then Err(NameError)
    else
      var b := if kb == [] then NewBranch(key) else kb[0];
      var (sub, _) :- AddIn(b.branches, Inside(b.ns), path[1..]);
      var b' := b.(branches := sub);
      Ok((bs[key := KeyBranches([b'])], b'))
  }

  /** `BaseAnnotations.pop`: remove and return a key's branches; an absent key
      yields the empty list. */
  function PopIn(bs: Branches, scope: Scope, k: KeyArg): (r: Result<(Branches, seq<Branch>)>)
    ensures r.Err? <==> scope.Root? && k.Plain?
  {
    var key :- ParseKey(scope, k);
    if key in bs then Ok((bs - {key}, bs[key].list)) else Ok((bs, []))
  }

  // ---------------------------------------------------------------------
  // Properties

  /** `get` only consults its default when the attribute is absent: it
      returns the stored string, the default, or `NameError` without one. */
  lemma {:induction false} GetMeaning(bs: Branches, scope: Scope, path: seq<KeyArg>, attr: string, default: Option<Value>)
    requires |path| > 0
    ensures GetIn(bs, scope, path, attr, default) ==
            match LookupIn(bs, scope, path, attr)
            case Err(e) => Err(e)
            case Ok(Some(s)) => Ok(Text(s))
            case Ok(None) => if default.Some? then Ok(default.value) else Err(NameError)
    decreases |path|
  {
    var key := ParseKey(scope, path[0]);
    if key.Ok? && key.value in bs && |bs[key.value].list| == 1 && |path| > 1 {
      var b := bs[key.value].list[0];
      GetMeaning(b.branches, Inside(b.ns), path[1..], attr, default);
    }
  }

  /** `set` followed by `get` along the same path yields `str(value)`,
      whatever default is given. */
  lemma {:induction false} SetThenGet(bs: Branches, scope: Scope, path: seq<KeyArg>, attr: string, v: Value, default: Option<Value>)
    requires |path| > 0
    requires SetIn(bs, scope, path, attr, v).Ok?
    ensures LookupIn(SetIn(bs, scope, path, attr, v).value, scope, path, attr) == Ok(Some(Str(v)))
    ensures GetIn(SetIn(bs, scope, path, attr, v).value, scope, path, attr, default) == Ok(Text(Str(v)))
    decreases |path|
  {
    var key := ParseKey(scope, path[0]).value;
    var kb := if key in bs then bs[key].list else [];
    var b := if |kb| == 1 then kb[0] else NewBranch(key);
    var b' := BranchSet(b, path[1..], attr, v).value;
    if |path| > 1 {
      SetThenGet(b.branches, Inside(b.ns), path[1..], attr, v, default);
      assert b'.branches == SetIn(b.branches, Inside(b.ns), path[1..], attr, v).value;
    }
    GetMeaning(SetIn(bs, scope, path, attr, v).value, scope, path, attr, default);
  }

  /** The branch `set` builds under a key holding no branch: one new branch
      per remaining key, the last carrying the attribute. */
  function Fresh(key: Key, path: seq<KeyArg>, attr: string, v: Value): Branch
    decreases |path|
  {
    if path == [] then NewBranch(key).(attr := map[attr := Str(v)])
    else
      var sub := Qualify(key.1, path[0]);
      NewBranch(key).(branches := map[sub := KeyBranches([Fresh(sub, path[1..], attr, v)])])
  }

  /** Setting into a fresh branch creates the missing intermediate branches. */
  lemma {:induction false} SetFresh(key: Key, path: seq<KeyArg>, attr: string, v: Value)
    ensures BranchSet(NewBranch(key), path, attr, v) == Ok(Fresh(key, path, attr, v))
    decreases |path|
  {
    if path != [] {
      SetFresh(Qualify(key.1, path[0]), path[1..], attr, v);
    }
  }

  /** `set` under a key that holds no branch always succeeds and stores the
      chain of fresh branches there. */
  lemma SetCreates(bs: Branches, scope: Scope, path: seq<KeyArg>, attr: string, v: Value)
    requires |path| > 0
    requires ParseKey(scope, path[0]).Ok?
    requires var key := ParseKey(scope, path[0]).value; key !in bs || bs[key].list == []
    ensures var key := ParseKey(scope, path[0]).value;
            SetIn(bs, scope, path, attr, v) == Ok(bs[key := KeyBranches([Fresh(key, path[1..], attr, v)])])
  {
    SetFresh(ParseKey(scope, path[0]).value, path[1..], attr, v);
  }

  /** A key holding several branches makes `set`, `get`, `delete` and a
      nested `add` fail with `NameError`. */
  lemma AmbiguousKeyRejected(bs: Branches, scope: Scope, path: seq<KeyArg>, attr: string, v: Value, default: Option<Value>)
    requires |path| > 0
    requires ParseKey(scope, path[0]).Ok?
    requires var key := ParseKey(scope, path[0]).value; key in bs && |bs[key].list| > 1
    ensures SetIn(bs, scope, path, attr, v) == Err(NameError)
    ensures GetIn(bs, scope, path, attr, default) == Err(NameError)
    ensures DeleteIn(bs, scope, path, attr) == Err(NameError)
    ensures |path| > 1 ==> AddIn(bs, scope, path) == Err(NameError)
  {
  }

  /** After a successful `delete` the attribute can no longer be found. */
  lemma {:induction false} DeleteThenLookup(bs: Branches, scope: Scope, path: seq<KeyArg>, attr: string)
    requires |path| > 0
    requires DeleteIn(bs, scope, path, attr).Ok?
    ensures LookupIn(DeleteIn(bs, scope, path, attr).value, scope, path, attr) == Ok(None)
    ensures GetIn(DeleteIn(bs, scope, path, attr).value, scope, path, attr, None) == Err(NameError)
    decreases |path|
  {
    var after := DeleteIn(bs, scope, path, attr).value;
    var key := ParseKey(scope, path[0]).value;
    if key in bs && |path| > 1 {
      var b := bs[key].list[0];
      DeleteThenLookup(b.branches, Inside(b.ns), path[1..], attr);
    }
    GetMeaning(after, scope, path, attr, None);
  }

  /** No key holds an empty list and no branch, at any depth, is empty. */
  predicate TidyBranch(b: Branch)
  {
    !Empty(b) &&
    forall k :: k in b.branches ==>
      |b.branches[k].list| > 0 &&
      forall i :: 0 <= i < |b.branches[k].list| ==> TidyBranch(b.branches[k].list[i])
  }

  predicate Tidy(bs: Branches)
  {
    forall k :: k in bs ==>
      |bs[k].list| > 0 &&
      forall i :: 0 <= i < |bs[k].list| ==> TidyBranch(bs[k].list[i])
  }

  lemma TidyUnfold(b: Branch)
    ensures TidyBranch(b) <==> !Empty(b) && Tidy(b.branches)
  {
  }

  /** The chain `set` creates is tidy. */
  lemma {:induction false} FreshTidy(key: Key, path: seq<KeyArg>, attr: string, v: Value)
    ensures TidyBranch(Fresh(key, path, attr, v))
    decreases |path|
  {
    if path == [] {
      assert attr in Fresh(key, path, attr, v).attr;
    } else {
      var sub := Qualify(key.1, path[0]);
      FreshTidy(sub, path[1..], attr, v);
      assert sub in Fresh(key, path, attr, v).branches;
    }
  }

  /** `set` keeps a tidy tree tidy. */
  lemma {:induction false} SetKeepsTidy(bs: Branches, scope: Scope, path: seq<KeyArg>, attr: string, v: Value)
    requires |path| > 0
    requires Tidy(bs)
    requires SetIn(bs, scope, path, attr, v).Ok?
    ensures Tidy(SetIn(bs, scope, path, attr, v).value)
    decreases |path|
  {
    var key := ParseKey(scope, path[0]).value;
    var kb := if key in bs then bs[key].list else [];
    var b := if |kb| == 1 then kb[0] else NewBranch(key);
    var b' := BranchSet(b, path[1..], attr, v).value;
    if |kb| == 1 {
      TidyUnfold(b);
      if |path| > 1 {
        SetKeepsTidy(b.branches, Inside(b.ns), path[1..], attr, v);
        assert b'.branches == SetIn(b.branches, Inside(b.ns), path[1..], attr, v).value;
        assert b'.branches != map[];
      } else {
        assert b'.attr != map[] by { assert attr in b'.attr; }
      }
      TidyUnfold(b');
    } else {
      SetFresh(key, path[1..], attr, v);
      FreshTidy(key, path[1..], attr, v);
    }
  }

  /** `delete` keeps a tidy tree tidy: a branch it leaves empty is pruned. */
  lemma {:induction false} DeleteKeepsTidy(bs: Branches, scope: Scope, path: seq<KeyArg>, attr: string)
    requires |path| > 0
    requires Tidy(bs)
    requires DeleteIn(bs, scope, path, attr).Ok?
    ensures Tidy(DeleteIn(bs, scope, path, attr).value)
    decreases |path|
  {
    var key := ParseKey(scope, path[0]).value;
    if key in bs {
      var b := bs[key].list[0];
      var b' := BranchDelete(b, path[1..], attr).value;
      TidyUnfold(b);
      if |path| > 1 {
        DeleteKeepsTidy(b.branches, Inside(b.ns), path[1..], attr);
        assert b'.branches == DeleteIn(b.branches, Inside(b.ns), path[1..], attr).value;
      }
      TidyUnfold(b');
    }
  }

  /** `pop` keeps a tidy tree tidy, and afterwards the key is absent. */
  lemma PopRemoves(bs: Branches, scope: Scope, k: KeyArg)
    requires PopIn(bs, scope, k).Ok?
    ensures var (after, popped) := PopIn(bs, scope, k).value;
            ContainsIn(after, scope, k) == Ok(false) &&
            GetItemIn(after, scope, k) == Err(NameError) &&
            (popped == [] <==> ContainsIn(bs, scope, k) == Ok(false) || GetItemIn(bs, scope, k) == Ok([])) &&
            (ContainsIn(bs, scope, k) == Ok(true) ==> GetItemIn(bs, scope, k) == Ok(popped)) &&
            (Tidy(bs) ==> Tidy(after))
  {
  }

  /** `add` puts exactly one more branch at the end of its path, and fails
      exactly where the path cannot be followed. */
  lemma {:induction false} AddCounts(bs: Branches, scope: Scope, path: seq<KeyArg>)
    requires |path| > 0
    ensures AddIn(bs, scope, path).Ok? <==> CountIn(bs, scope, path).Ok?
    ensures AddIn(bs, scope, path).Ok? ==>
              CountIn(AddIn(bs, scope, path).value.0, scope, path) == Ok(CountIn(bs, scope, path).value + 1)
    decreases |path|
  {
    var key := ParseKey(scope, path[0]);
    if key.Ok? && |path| > 1 {
      var kb := if key.value in bs then bs[key.value].list else [];
      if |kb| <= 1 {
        var b := if kb == [] then NewBranch(key.value) else kb[0];
        AddCounts(b.branches, Inside(b.ns), path[1..]);
        if kb == [] {
          NewCountsNone(b.ns, path[1..]);
        }
      }
    }
  }

  /** Nothing is found below a branch with no sub-branches. */
  lemma NewCountsNone(ns: string, path: seq<KeyArg>)
    requires |path| > 0
    ensures CountIn(map[], Inside(ns), path) == Ok(0)
  {
  }

  // ---------------------------------------------------------------------
  // The root block

  /** `Annotations`: the root block, whose keys must be explicit pairs. */
  class Annotations {
    var branches: Branches

    constructor (initial: Branches)
      ensures branches == initial
    {
      branches := initial;
    }

    /** `get` at the root; with no keys the attribute name itself is parsed
        as the first key and rejected. */
    function Get(path: seq<KeyArg>, attr: string, default: Option<Value>): Result<Value>
      reads this
    {
      if path == [] then Err(XmlError) else GetIn(branches, Root, path, attr, default)
    }

    function Contains(k: KeyArg): Result<bool>
      reads this
    {
      ContainsIn(branches, Root, k)
    }

    function GetItem(k: KeyArg): Result<seq<Branch>>
      reads this
    {
      GetItemIn(branches, Root, k)
    }

    /** `set` at the root; afterwards `get` along the same path returns the
        stored string and a tidy block stays tidy. */
    method Set(path: seq<KeyArg>, attr: string, v: Value) returns (r: Result<()>)
      modifies this
      ensures path == [] ==> r == Err(XmlError) && branches == old(branches)
      ensures path != [] ==> (r.Ok? <==> SetIn(old(branches), Root, path, attr, v).Ok?)
      ensures path != [] && r.Ok? ==> branches == SetIn(old(branches), Root, path, attr, v).value
      ensures r.Err? ==> branches == old(branches) && r.error in {XmlError, NameError}
      ensures r.Ok? ==> Get(path, attr, None) == Ok(Text(Str(v)))
      ensures r.Ok? && Tidy(old(branches)) ==> Tidy(branches)
    {
      if path == [] {
        return Err(XmlError);
      }
      var res := SetIn(branches, Root, path, attr, v);
      if res.Err? {
        return Err(res.error);
      }
      SetThenGet(branches, Root, path, attr, v, None);
      if Tidy(branches) {
        SetKeepsTidy(branches, Root, path, attr, v);
      }
      branches := res.value;
      r := Ok(());
    }

    /** `delete` at the root; afterwards the attribute is gone and a tidy
        block stays tidy. */
    method Delete(path: seq<KeyArg>, attr: string) returns (r: Result<()>)
      modifies this
      ensures path == [] ==> r == Err(XmlError) && branches == old(branches)
      ensures path != [] ==> (r.Ok? <==> DeleteIn(old(branches), Root, path, attr).Ok?)
      ensures path != [] && r.Ok? ==> branches == DeleteIn(old(branches), Root, path, attr).value
      ensures r.Err? ==> branches == old(branches) && r.error in {XmlError, NameError}
      ensures r.Ok? ==> Get(path, attr, None) == Err(NameError)
      ensures r.Ok? && Tidy(old(branches)) ==> Tidy(branches)
    {
      if path == [] {
        return Err(XmlError);
      }
      var res := DeleteIn(branches, Root, path, attr);
      if res.Err? {
        return Err(res.error);
      }
      DeleteThenLookup(branches, Root, path, attr);
      if Tidy(branches) {
        DeleteKeepsTidy(branches, Root, path, attr);
      }
      branches := res.value;
      r := Ok(());
    }

    /** `add` at the root. */
    method Add(path: seq<KeyArg>) returns (r: Result<Branch>)
      requires |path| > 0
      modifies this
      ensures r.Ok? <==> CountIn(old(branches), Root, path).Ok?
      ensures r.Ok? ==> AddIn(old(branches), Root, path).Ok? &&
                        branches == AddIn(old(branches), Root, path).value.0 &&
                        r.value == AddIn(old(branches), Root, path).value.1
      ensures r.Ok? ==> CountIn(branches, Root, path) == Ok(CountIn(old(branches), Root, path).value + 1)
      ensures r.Err? ==> branches == old(branches) && r.error in {XmlError, NameError}
    {
      var res := AddIn(branches, Root, path);
      AddCounts(branches, Root, path);
      if res.Err? {
        return Err(res.error);
      }
      branches := res.value.0;
      r := Ok(res.value.1);
    }

    /** `pop` at the root. */
    method Pop(k: KeyArg) returns (r: Result<seq<Branch>>)
      modifies this
      ensures r.Err? <==> k.Plain?
      ensures r.Err? ==> r.error == XmlError && branches == old(branches)
      ensures r.Ok? ==> r.value == (if (k.name, k.ns) in old(branches) then old(branches)[(k.name, k.ns)].list else [])
      ensures r.Ok? ==> branches == old(branches) - {(k.name, k.ns)}
      ensures r.Ok? ==> Contains(k) == Ok(false)
    {
      var res := PopIn(branches, Root, k);
      if res.Err? {
        return Err(res.error);
      }
      branches := res.value.0;
      r := Ok(res.value.1);
    }
  }
}
