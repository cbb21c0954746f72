/** The purity lint's scope resolver: one top-down dictionary pass over a tree
    of scopes, on the fragment of modules, nested functions, imports,
    assignments of unknown values, `global` and `nonlocal`. */
module Scopes {
  import opened Records

  /** A reference "head.rest", or a bare "head" with no rest. */
  datatype Use = Use(line: int, head: string, rest: string)

  /** An import's local name and what it names; None when a relative import
      could not be placed. */
  type Import = (string, Option<string>)

  datatype Scope = Scope(
    imports: seq<Import>, rebound: set<string>, globals: set<string>, nonlocals: set<string>,
    uses: seq<Use>, children: Forest)

  datatype Forest = NoScopes | Scopes(first: Scope, rest: Forest)

  type Bindings = map<string, Option<string>>

  const BUILTINS: Bindings := map["__import__" := Some("__import__")]

  /** bindings.get(name): absent and unresolvable look the same. */
  function Get(b: Bindings, name: string): Option<string> { if name in b then b[name] else None }

  /** imported: each statement's names in order, later ones overwriting. */
  function Imported(imports: seq<Import>): Bindings {
    if imports == [] then map[]
    else Imported(imports[..|imports| - 1])[imports[|imports| - 1].0 := imports[|imports| - 1].1]
  }

  // ---- the pass ----

  /** What one scope makes of one name, given the enclosing dictionary.
      `top` is None in the module's own scope, whose dictionary the pass is
      still building. */
  function NameAfter(s: Scope, inherited: Bindings, top: Option<Bindings>, name: string): Option<Option<string>> {
    var imported := Imported(s.imports);
    var before := if name in imported then Some(imported[name])
                  else if name in inherited then Some(inherited[name]) else None;
    if (name !in s.rebound && name !in s.globals) || name in s.nonlocals then before
    else if name in s.globals then
      if name in imported then before
      else match top
        case Some(m) => Some(Get(m, name))
        case None => (match before case Some(x) => Some(x) case None => Some(None))
    else if (top.Some? && name !in imported) || before.None? then Some(None)
    else before
  }

  function Names(s: Scope, inherited: Bindings): set<string> {
    inherited.Keys + Imported(s.imports).Keys + s.rebound + s.globals
  }

  function BindingsOf(s: Scope, inherited: Bindings, top: Option<Bindings>): Bindings {
    map n | n in Names(s, inherited) && NameAfter(s, inherited, top, n).Some?
      :: NameAfter(s, inherited, top, n).value
  }

  /** _candidates, with no star import in sight. */
  function Candidate(u: Use, b: Bindings): Option<string> {
    match Get(b, u.head)
    case None => None
    case Some(base) => Some(if u.rest == "" then base else base + "." + u.rest)
  }

  datatype Report = Report(line: int, target: string)

  function ReportUses(uses: seq<Use>, b: Bindings, bad: string -> bool): seq<Report> {
    if uses == [] then []
    else
      var hit := Candidate(uses[0], b);
      (if hit.Some? && bad(hit.value) then [Report(uses[0].line, hit.value)] else [])
      + ReportUses(uses[1..], b, bad)
  }

  /** _scan_scope: the scope's own uses, then each nested scope's. */
  function Scan(s: Scope, inherited: Bindings, top: Option<Bindings>, bad: string -> bool): seq<Report>
    decreases s
  {
    var b := BindingsOf(s, inherited, top);
    ReportUses(s.uses, b, bad) + ScanAll(s.children, b, if top.Some? then top.value else b, bad)
  }

  function ScanAll(f: Forest, b: Bindings, top: Bindings, bad: string -> bool): seq<Report>
    decreases f
  {
    match f
    case NoScopes => []
    case Scopes(s, rest) => Scan(s, b, Some(top), bad) + ScanAll(rest, b, top, bad)
  }

  // ---- as written ----

  method ImportedNames(imports: seq<Import>) returns (imported: Bindings)
    ensures imported == Imported(imports)
  {
    imported := map[];
    for i := 0 to |imports|
      invariant imported == Imported(imports[..i])
    {
      assert imports[..i + 1][..i] == imports[..i];
      imported := imported[imports[i].0 := imports[i].1];
    }
    assert imports[..|imports|] == imports;
  }

  function Lookup(b: Bindings, name: string): Option<Option<string>> {
    if name in b then Some(b[name]) else None
  }

  /** How far the rebinding loop has got: names still to do are as inherited or
      imported, the rest are final. */
  ghost predicate Rebound(s: Scope, inherited: Bindings, top: Option<Bindings>, b: Bindings, todo: set<string>) {
    forall n :: Lookup(b, n) == if n in todo then Lookup(inherited + Imported(s.imports), n)
                                else NameAfter(s, inherited, top, n)
  }

  lemma ReboundStart(s: Scope, inherited: Bindings, top: Option<Bindings>)
    ensures Rebound(s, inherited, top, inherited + Imported(s.imports), s.rebound + s.globals)
  {
  }

  lemma ReboundEnd(s: Scope, inherited: Bindings, top: Option<Bindings>, b: Bindings)
    requires Rebound(s, inherited, top, b, {})
    ensures b == BindingsOf(s, inherited, top)
  {
    var r := BindingsOf(s, inherited, top);
    forall n ensures n in b <==> n in r { assert Lookup(b, n) == NameAfter(s, inherited, top, n); }
    forall n | n in b ensures b[n] == r[n] { assert Lookup(b, n) == NameAfter(s, inherited, top, n); }
  }

  lemma ReboundStep(s: Scope, inherited: Bindings, top: Option<Bindings>, b: Bindings, b': Bindings,
                    todo: set<string>, name: string)
    requires Rebound(s, inherited, top, b, todo) && name in todo
    requires Lookup(b', name) == NameAfter(s, inherited, top, name)
    requires forall n | n != name :: Lookup(b', n) == Lookup(b, n)
    ensures Rebound(s, inherited, top, b', todo - {name})
  {
    hide NameAfter;
  }

  /** The body of the rebinding loop. */
  method RebindName(s: Scope, imported: Bindings, ghost inherited: Bindings, top: Option<Bindings>, b: Bindings, name: string)
    returns (b': Bindings)
    requires imported == Imported(s.imports) && name in s.rebound + s.globals
    requires Lookup(b, name) == Lookup(inherited + imported, name)
    ensures Lookup(b', name) == NameAfter(s, inherited, top, name)
    ensures forall n | n != name :: Lookup(b', n) == Lookup(b, n)
  {
    b' := b;
    if name in s.nonlocals {
      // the enclosing function's binding, which was inherited
    } else if name in s.globals {
      if name !in imported {
        b' := b[name := if top.Some? then Get(top.value, name) else Get(b, name)];
      }
    } else if (top.Some? && name !in imported) || name !in b {
      b' := b[name := None];
    }
  }

  /** The dictionary of one scope, name by name in any order. */
  method Rebind(s: Scope, inherited: Bindings, top: Option<Bindings>) returns (b: Bindings)
    ensures b == BindingsOf(s, inherited, top)
  {
    hide NameAfter, BindingsOf, Rebound;
    var imported := ImportedNames(s.imports);
    b := inherited + imported;
    var todo := s.rebound + s.globals;
    ReboundStart(s, inherited, top);
    while todo != {}
      invariant todo <= s.rebound + s.globals && Rebound(s, inherited, top, b, todo)
      decreases todo
    {
      var name :| name in todo;
      StillAsBefore(s, inherited, top, b, todo, name);
      var b' := RebindName(s, imported, inherited, top, b, name);
      ReboundStep(s, inherited, top, b, b', todo, name);
      b, todo := b', todo - {name};
    }
    ReboundEnd(s, inherited, top, b);
  }

  lemma StillAsBefore(s: Scope, inherited: Bindings, top: Option<Bindings>, b: Bindings, todo: set<string>, name: string)
    requires Rebound(s, inherited, top, b, todo) && name in todo
    ensures Lookup(b, name) == Lookup(inherited + Imported(s.imports), name)
  {
  }

  /** The uses of one scope, in order. */
  method CheckUses(uses: seq<Use>, b: Bindings, bad: string -> bool) returns (errors: seq<Report>)
    ensures errors == ReportUses(uses, b, bad)
  {
    errors := [];
    for i := 0 to |uses|
      invariant errors + ReportUses(uses[i..], b, bad) == ReportUses(uses, b, bad)
    {
      var u := uses[i];
      assert uses[i..][0] == u && uses[i..][1..] == uses[i + 1..];
      var hit := Candidate(u, b);
      ghost var rest := ReportUses(uses[i + 1..], b, bad);
      if hit.Some? && bad(hit.value) {
        assert errors + ([Report(u.line, hit.value)] + rest) == errors + [Report(u.line, hit.value)] + rest;
        errors := errors + [Report(u.line, hit.value)];
      } else {
        assert [] + rest == rest;
      }
    }
    assert uses[|uses|..] == [];
  }

  method ScanScope(s: Scope, inherited: Bindings, top: Option<Bindings>, bad: string -> bool)
    returns (errors: seq<Report>)
    ensures errors == Scan(s, inherited, top, bad)
    decreases s
  {
    hide BindingsOf, ReportUses, Candidate;
    var b := Rebind(s, inherited, top);
    var own := CheckUses(s.uses, b, bad);
    errors := own;
    var root := if top.Some? then top.value else b;
    var todo := s.children;
    while todo.Scopes?
      invariant todo == s.children || todo < s.children
      invariant errors + ScanAll(todo, b, root, bad) == own + ScanAll(s.children, b, root, bad)
      decreases todo
    {
      var more := ScanScope(todo.first, b, Some(root), bad);
      assert errors + (more + ScanAll(todo.rest, b, root, bad)) == errors + more + ScanAll(todo.rest, b, root, bad);
      errors, todo := errors + more, todo.rest;
    }
  }

  // ---- Python's rule ----

  predicate Imports(s: Scope, name: string) { exists i :: 0 <= i < |s.imports| && s.imports[i].0 == name }

  predicate Binds(s: Scope, name: string) { name in s.rebound || Imports(s, name) }

  /** Which scope of the chain (module first, innermost last) a name used in
      scope i refers to: a `global` declaration sends it to the module; a scope
      that binds it, not by `nonlocal`, keeps it; otherwise the enclosing one
      decides, and what the module does not bind is a builtin. */
  function ResolvesTo(chain: seq<Scope>, i: nat, name: string): (r: Option<nat>)
    requires i < |chain|
    ensures r.Some? ==> r.value <= i
  {
    if i == 0 then (if Binds(chain[0], name) then Some(0) else None)
    else if name in chain[i].globals then ResolvesTo(chain, 0, name)
    else if Binds(chain[i], name) && name !in chain[i].nonlocals then Some(i)
    else ResolvesTo(chain, i - 1, name)
  }

  /** What that scope imports the name as. A name the module binds but does not
      import can still be the builtin, in a use that runs before the binding. */
  function Target(chain: seq<Scope>, name: string): Option<string>
    requires chain != []
  {
    TargetFrom(chain, |chain| - 1, name)
  }

  function TargetFrom(chain: seq<Scope>, i: nat, name: string): Option<string>
    requires i < |chain|
  {
    match ResolvesTo(chain, i, name)
    case Some(j) =>
      if Imports(chain[j], name) then Get(Imported(chain[j].imports), name)
      else if j == 0 then Get(BUILTINS, name) else None
    case None => Get(BUILTINS, name)
  }

  /** The fragment: one target per imported name per scope, none of them
      declared global or nonlocal there; no name both; nothing nonlocal in the
      module. */
  predicate Plain(s: Scope) {
    && (forall i, j | 0 <= i < j < |s.imports| && s.imports[i].0 == s.imports[j].0 :: s.imports[i].1 == s.imports[j].1)
    && (forall i | 0 <= i < |s.imports| :: s.imports[i].0 !in s.globals && s.imports[i].0 !in s.nonlocals)
    && s.globals !! s.nonlocals
  }

  predicate PlainTree(s: Scope)
    decreases s
  {
    Plain(s) && PlainForest(s.children)
  }

  predicate PlainForest(f: Forest)
    decreases f
  {
    f.NoScopes? || (PlainTree(f.first) && PlainForest(f.rest))
  }

  predicate PlainChain(chain: seq<Scope>) {
    chain != [] && (forall i | 0 <= i < |chain| :: Plain(chain[i])) && chain[0].nonlocals == {}
  }

  // ---- the dictionary is Python's resolution ----

  lemma {:induction false} ImportedIff(imports: seq<Import>, name: string)
    ensures name in Imported(imports) <==> exists i :: 0 <= i < |imports| && imports[i].0 == name
  {
    if imports != [] {
      var front := imports[..|imports| - 1];
      ImportedIff(front, name);
      if name in Imported(front) {
        var i :| 0 <= i < |front| && front[i].0 == name;
        assert imports[i].0 == name;
      }
      forall i | 0 <= i < |imports| && imports[i].0 == name ensures name in Imported(imports) {
        if i < |front| { assert front[i].0 == name; }
      }
    }
  }

  /** The dictionary the pass reaches in the innermost scope of a chain. */
  function DictAt(chain: seq<Scope>): Bindings
    requires chain != []
  {
    if |chain| == 1 then BindingsOf(chain[0], BUILTINS, None)
    else BindingsOf(chain[|chain| - 1], DictAt(chain[..|chain| - 1]), Some(DictAt(chain[..1])))
  }

  lemma GetBindings(s: Scope, inherited: Bindings, top: Option<Bindings>, name: string)
    ensures Get(BindingsOf(s, inherited, top), name)
            == match NameAfter(s, inherited, top, name) case Some(x) => x case None => None
  {
  }

  lemma ModuleResolves(s: Scope, name: string)
    requires Plain(s) && s.nonlocals == {}
    ensures Get(BindingsOf(s, BUILTINS, None), name) == TargetFrom([s], 0, name)
  {
    GetBindings(s, BUILTINS, None, name);
    ImportedIff(s.imports, name);
  }

  lemma FunctionResolves(s: Scope, inherited: Bindings, top: Bindings, name: string)
    requires Plain(s)
    ensures Get(BindingsOf(s, inherited, Some(top)), name)
            == if name in s.globals then Get(top, name)
               else if Binds(s, name) && name !in s.nonlocals then
                 (if Imports(s, name) then Get(Imported(s.imports), name) else None)
               else Get(inherited, name)
  {
    GetBindings(s, inherited, Some(top), name);
    ImportedIff(s.imports, name);
  }

  lemma {:induction false} ResolveInPrefix(chain: seq<Scope>, n: nat, i: nat, name: string)
    requires i < n <= |chain|
    ensures ResolvesTo(chain[..n], i, name) == ResolvesTo(chain, i, name)
    ensures TargetFrom(chain[..n], i, name) == TargetFrom(chain, i, name)
  {
    if i > 0 {
      ResolveInPrefix(chain, n, i - 1, name);
      ResolveInPrefix(chain, n, 0, name);
    }
  }

  /** At every scope, for every name, the dictionary gives exactly the import
      target of the scope Python resolves the name to, and nothing when that
      scope does not import it. */
  lemma {:induction false} DictionaryIsResolution(chain: seq<Scope>, name: string)
    requires PlainChain(chain)
    ensures Get(DictAt(chain), name) == Target(chain, name)
    decreases |chain|
  {
    hide BindingsOf, Imported, Binds, Imports, Get, Plain;
    var n := |chain|;
    assert chain[..1] == [chain[0]];
    ModuleResolves(chain[0], name);
    ResolveInPrefix(chain, 1, 0, name);
    if n > 1 {
      var s, outer := chain[n - 1], chain[..n - 1];
      DictionaryIsResolution(outer, name);
      FunctionResolves(s, DictAt(outer), DictAt(chain[..1]), name);
      ResolveInPrefix(chain, n - 1, n - 2, name);
      FunctionTarget(chain, name);
    } else {
      assert chain == [chain[0]];
    }
  }

  lemma FunctionTarget(chain: seq<Scope>, name: string)
    requires |chain| > 1
    ensures var s := chain[|chain| - 1];
            Target(chain, name)
            == if name in s.globals then TargetFrom(chain, 0, name)
               else if Binds(s, name) && name !in s.nonlocals then
                 (if Imports(s, name) then Get(Imported(s.imports), name) else None)
               else TargetFrom(chain, |chain| - 2, name)
  {
  }

  // ---- and so the lint flags exactly what Python would reach ----

  function Reached(uses: seq<Use>, chain: seq<Scope>, bad: string -> bool): seq<Report>
    requires chain != []
  {
    if uses == [] then []
    else
      var base := Target(chain, uses[0].head);
      var target := if base.None? then "" else if uses[0].rest == "" then base.value else base.value + "." + uses[0].rest;
      (if base.Some? && bad(target) then [Report(uses[0].line, target)] else []) + Reached(uses[1..], chain, bad)
  }

  /** Every use in the tree that Python resolves to something forbidden. */
  function Flagged(s: Scope, outer: seq<Scope>, bad: string -> bool): seq<Report>
    decreases s
  {
    Reached(s.uses, outer + [s], bad) + FlaggedAll(s.children, outer + [s], bad)
  }

  function FlaggedAll(f: Forest, outer: seq<Scope>, bad: string -> bool): seq<Report>
    decreases f
  {
    match f
    case NoScopes => []
    case Scopes(s, rest) => Flagged(s, outer, bad) + FlaggedAll(rest, outer, bad)
  }

  lemma {:induction false} UsesAgree(uses: seq<Use>, chain: seq<Scope>, bad: string -> bool)
    requires PlainChain(chain)
    ensures ReportUses(uses, DictAt(chain), bad) == Reached(uses, chain, bad)
  {
    hide DictAt, Target, PlainChain, Get;
    if uses != [] {
      DictionaryIsResolution(chain, uses[0].head);
      UsesAgree(uses[1..], chain, bad);
    }
  }

  lemma {:induction false} TreeAgrees(s: Scope, outer: seq<Scope>, bad: string -> bool)
    requires PlainTree(s) && PlainChain(outer + [s])
    ensures Scan(s, if outer == [] then BUILTINS else DictAt(outer),
                 if outer == [] then None else Some(DictAt(outer[..1])), bad)
            == Flagged(s, outer, bad)
    decreases s
  {
    var chain := outer + [s];
    assert chain[..|chain| - 1] == outer;
    UsesAgree(s.uses, chain, bad);
    ForestAgrees(s.children, chain, bad);
    if outer != [] { assert chain[..1] == outer[..1]; } else { assert chain[..1] == chain; }
  }

  lemma {:induction false} ForestAgrees(f: Forest, chain: seq<Scope>, bad: string -> bool)
    requires PlainForest(f) && PlainChain(chain)
    ensures ScanAll(f, DictAt(chain), DictAt(chain[..1]), bad) == FlaggedAll(f, chain, bad)
    decreases f
  {
    if f.Scopes? {
      TreeAgrees(f.first, chain, bad);
      ForestAgrees(f.rest, chain, bad);
    }
  }

  /** A whole file: the lint reports exactly the uses Python would resolve to a
      forbidden target, in order. */
  lemma LintIsExact(file: Scope, bad: string -> bool)
    requires PlainTree(file) && file.nonlocals == {}
    ensures Scan(file, BUILTINS, None, bad) == Flagged(file, [], bad)
  {
    assert [] + [file] == [file];
    TreeAgrees(file, [], bad);
  }

  // ---- _forbidden_import: a dotted prefix is a prefix of components ----

  /** The dotted components; n dots make n + 1 of them. */
  function Components(s: string): (r: seq<string>)
    ensures r != []
  {
    if s == "" then [""]
    else if s[0] == '.' then [""] + Components(s[1..])
    else
      var rest := Components(s[1..]);
      [[s[0]] + rest[0]] + rest[1..]
  }

  predicate Forbids(entry: string, name: string) { name == entry || entry + "." <= name }

  lemma {:induction false} ComponentsJoin(a: string, b: string)
    ensures Components(a + "." + b) == Components(a) + Components(b)
  {
    if a == "" {
      assert a + "." + b == "." + b && ("." + b)[1..] == b;
    } else {
      assert (a + "." + b)[1..] == a[1..] + "." + b;
      ComponentsJoin(a[1..], b);
    }
  }

  lemma {:induction false} ComponentsDecide(a: string, b: string)
    requires Components(a) <= Components(b)
    ensures Forbids(a, b)
  {
    if a == "" {
      assert Components(b)[0] == Components(a)[0] == "";
      assert b == "" || b[0] == '.';
    } else if a[0] == '.' {
      assert Components(a)[0] == "" && Components(b)[0] == "";
      assert b != "" by { assert |Components(a)| >= 2; }
      assert Components(a)[1..] <= Components(b)[1..];
      ComponentsDecide(a[1..], b[1..]);
      assert a == [a[0]] + a[1..] && b == [b[0]] + b[1..];
    } else {
      var x, y := Components(a[1..]), Components(b);
      assert Components(a)[0] == [a[0]] + x[0] == y[0];
      assert y[0][0] == a[0];
      assert b != "" && b[0] == a[0];
      var z := Components(b[1..]);
      assert y[0] == [b[0]] + z[0];
      assert x[0] == ([a[0]] + x[0])[1..] == ([b[0]] + z[0])[1..] == z[0];
      assert Components(a)[1..] == x[1..] && y[1..] == z[1..];
      assert x <= z;
      ComponentsDecide(a[1..], b[1..]);
      assert a == [a[0]] + a[1..] && b == [b[0]] + b[1..];
    }
  }

  /** "slackkit.real" forbids itself and what is inside it, never
      "slackkit.realtime". */
  lemma ForbidsIsComponentPrefix(entry: string, name: string)
    ensures Forbids(entry, name) <==> Components(entry) <= Components(name)
  {
    if name == entry {
    } else if entry + "." <= name {
      var rest := name[|entry| + 1..];
      assert name == entry + "." + rest;
      ComponentsJoin(entry, rest);
    }
    if Components(entry) <= Components(name) { ComponentsDecide(entry, name); }
  }
}
