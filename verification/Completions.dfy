/** Shell completions (internal/cli/completions.go): the command tree is flattened into contexts and one
    transition table, which the generated shell code walks token by token. */
module Completions {
  import opened Text

  datatype Node = Node(names: seq<string>, flags: seq<string>, children: seq<Node>)

  datatype Context = Context(path: string, candidates: seq<string>, transitions: Table)

  type Table = map<string, string>

  function Key(context: string, token: string): string { context + "|" + token }

  function Extended(path: string, name: string): string { TrimSpace(path + " " + name) }

  /* What the flattening computes. */

  function Kept(values: seq<string>, n: nat): seq<string>
    requires n <= |values|
  {
    if n == 0 then []
    else
      var before := Kept(values, n - 1);
      if values[n - 1] == "" || values[n - 1] in before then before else before + [values[n - 1]]
  }

  function Offered(node: Node, n: nat): seq<string>
    requires n <= |node.children|
  {
    if n == 0 then node.flags else Offered(node, n - 1) + node.children[n - 1].names
  }

  /** The flags of a node and the names of its children, each once. */
  function Candidates(node: Node): seq<string> {
    var all := Offered(node, |node.children|);
    Kept(all, |all|)
  }

  function ByName(path: string, names: seq<string>, n: nat): Table
    requires n <= |names|
  {
    if n == 0 then map[] else ByName(path, names, n - 1)[Key(path, names[n - 1]) := Extended(path, names[n - 1])]
  }

  function ByPath(paths: seq<string>, n: nat, names: seq<string>): Table
    requires n <= |paths|
  {
    if n == 0 then map[] else ByPath(paths, n - 1, names) + ByName(paths[n - 1], names, |names|)
  }

  function Transitions(paths: seq<string>, children: seq<Node>, n: nat): Table
    requires n <= |children|
  {
    if n == 0 then map[] else Transitions(paths, children, n - 1) + ByPath(paths, |paths|, children[n - 1].names)
  }

  function Named(path: string, names: seq<string>): (paths: seq<string>)
    ensures |paths| == |names| && forall i | 0 <= i < |names| :: paths[i] == Extended(path, names[i])
  {
    seq(|names|, i requires 0 <= i < |names| => Extended(path, names[i]))
  }

  function ChildPaths(paths: seq<string>, n: nat, names: seq<string>): seq<string>
    requires n <= |paths|
  {
    if n == 0 then [] else ChildPaths(paths, n - 1, names) + Named(paths[n - 1], names)
  }

  function Own(node: Node, paths: seq<string>, n: nat): seq<Context>
    requires n <= |paths|
  {
    if n == 0 then []
    else
      var context := Context(paths[n - 1], Candidates(node), Transitions(paths, node.children, |node.children|));
      Own(node, paths, n - 1) + [context]
  }

  /** The contexts of the first n children of a node that is reached under the given paths. */
  function Below(node: Node, paths: seq<string>, n: nat): seq<Context>
    requires n <= |node.children|
    decreases node, n
  {
    if n == 0 then []
    else
      var child := node.children[n - 1];
      Below(node, paths, n - 1) + Flat(child, ChildPaths(paths, |paths|, child.names))
  }

  function Flat(node: Node, paths: seq<string>): seq<Context>
    decreases node, |node.children| + 1
  {
    Own(node, paths, |paths|) + Below(node, paths, |node.children|)
  }

  method UniqueStrings(values: seq<string>) returns (result: seq<string>)
    ensures result == Kept(values, |values|)
  {
    var seen: set<string> := {};
    result := [];
    for i := 0 to |values|
      invariant result == Kept(values, i) && forall v :: v in seen <==> v in result
    {
      if values[i] == "" || values[i] in seen {
        continue;
      }
      seen := seen + {values[i]};
      result := result + [values[i]];
    }
  }

  class Flattener {
    var contexts: seq<Context>

    constructor ()
      ensures contexts == []
    {
      contexts := [];
    }

    method Visit(node: Node, paths: seq<string>)
      modifies this
      ensures contexts == old(contexts) + Flat(node, paths)
      decreases node
    {
      hide Extended, Transitions, Kept, Candidates;
      var candidates, transitions := Edges(node, paths);
      candidates := UniqueStrings(candidates);
      assert candidates == Candidates(node) by { CandidatesAreKept(node); }
      for i := 0 to |paths|
        invariant contexts == old(contexts) + Own(node, paths, i)
      {
        contexts := contexts + [Context(paths[i], candidates, transitions)];
      }
      ghost var own := contexts;
      for i := 0 to |node.children|
        invariant contexts == own + Below(node, paths, i)
      {
        var childPaths := PathsOf(paths, node.children[i].names);
        Visit(node.children[i], childPaths);
      }
    }

    method Edges(node: Node, paths: seq<string>) returns (candidates: seq<string>, transitions: Table)
      ensures candidates == Offered(node, |node.children|)
      ensures transitions == Transitions(paths, node.children, |node.children|)
    {
      hide Extended;
      candidates := node.flags;
      transitions := map[];
      for i := 0 to |node.children|
        invariant candidates == Offered(node, i) && transitions == Transitions(paths, node.children, i)
      {
        var child := node.children[i];
        candidates := candidates + child.names;
        for p := 0 to |paths|
          invariant transitions == Transitions(paths, node.children, i) + ByPath(paths, p, child.names)
        {
          transitions := AddNames(transitions, paths[p], child.names);
          MergeAssociates(Transitions(paths, node.children, i), ByPath(paths, p, child.names),
                          ByName(paths[p], child.names, |child.names|));
        }
      }
    }

    method AddNames(before: Table, path: string, names: seq<string>) returns (transitions: Table)
      ensures transitions == before + ByName(path, names, |names|)
    {
      hide Extended, Key;
      transitions := before;
      for k := 0 to |names|
        invariant transitions == before + ByName(path, names, k)
      {
        var childPath := Extended(path, names[k]);
        transitions := transitions[Key(path, names[k]) := childPath];
      }
    }

    method PathsOf(paths: seq<string>, names: seq<string>) returns (childPaths: seq<string>)
      ensures childPaths == ChildPaths(paths, |paths|, names)
    {
      hide Extended;
      childPaths := [];
      for p := 0 to |paths|
        invariant childPaths == ChildPaths(paths, p, names)
      {
        for k := 0 to |names|
          invariant childPaths == ChildPaths(paths, p, names) + Named(paths[p], names)[..k]
        {
          childPaths := childPaths + [Extended(paths[p], names[k])];
        }
        assert Named(paths[p], names)[..|names|] == Named(paths[p], names);
      }
    }
  }

  lemma MergeAssociates(a: Table, b: Table, c: Table)
    ensures (a + b) + c == a + (b + c)
  {
  }

  /** The values that are kept: every nonempty one, once, in the order in which they were first seen. */
  lemma {:induction false} KeptOnce(values: seq<string>, k: nat, n: nat)
    requires k <= n <= |values|
    ensures Distinct(Kept(values, n)) && Kept(values, k) <= Kept(values, n)
    ensures forall v :: v in Kept(values, n) <==> v != "" && v in values[..n]
  {
    if n > 0 {
      KeptOnce(values, if k < n then k else n - 1, n - 1);
      assert values[..n] == values[..n - 1] + [values[n - 1]];
    }
  }

  /** A flag of the node or a name of one of its first n children. */
  predicate Names(node: Node, n: nat, v: string)
    requires n <= |node.children|
  {
    v in node.flags || exists k :: 0 <= k < n && v in node.children[k].names
  }

  lemma {:induction false} OfferedAre(node: Node, n: nat)
    requires n <= |node.children|
    ensures node.flags <= Offered(node, n)
    ensures forall v :: v in Offered(node, n) <==> Names(node, n, v)
  {
    if n > 0 {
      OfferedAre(node, n - 1);
    }
  }

  /** The candidates of a node are its flags and the names of its children, but no empty one and none twice. */
  lemma CandidatesAreExact(node: Node)
    ensures Distinct(Candidates(node)) && Kept(node.flags, |node.flags|) <= Candidates(node)
    ensures forall v :: v in Candidates(node) <==> v != "" && Names(node, |node.children|, v)
  {
    var all := Offered(node, |node.children|);
    OfferedAre(node, |node.children|);
    KeptOnce(all, |node.flags|, |all|);
    assert all[..|all|] == all && all[..|node.flags|] == node.flags;
    SameKept(node.flags, all, |node.flags|);
  }

  lemma {:induction false} SameKept(a: seq<string>, b: seq<string>, n: nat)
    requires n <= |a| && a <= b
    ensures Kept(a, n) == Kept(b, n)
  {
    if n > 0 {
      SameKept(a, b, n - 1);
    }
  }

  lemma CandidatesAreKept(node: Node)
    ensures var all := Offered(node, |node.children|);
      Candidates(node) == Kept(all, |all|)
  {
  }

  /** The merged table of all contexts, and the walk the generated code does over it. */
  function Merged(contexts: seq<Context>, n: nat): Table
    requires n <= |contexts|
  {
    if n == 0 then map[] else Merged(contexts, n - 1) + contexts[n - 1].transitions
  }

  function Walk(table: Table, tokens: seq<string>, n: nat): string
    requires n <= |tokens|
  {
    if n == 0 then ""
    else
      var context := Walk(table, tokens, n - 1);
      if Key(context, tokens[n - 1]) in table then table[Key(context, tokens[n - 1])] else context
  }

  /** The candidates of the first context with a path, if there is one. */
  function Lookup(contexts: seq<Context>, path: string): Option<seq<string>> {
    if contexts == [] then None
    else if contexts[0].path == path then Some(contexts[0].candidates)
    else Lookup(contexts[1..], path)
  }

  method AllTransitions(contexts: seq<Context>) returns (transitions: Table)
    ensures transitions == Merged(contexts, |contexts|)
  {
    transitions := map[];
    for i := 0 to |contexts|
      invariant transitions == Merged(contexts, i)
    {
      transitions := AddTable(transitions, contexts[i].transitions);
    }
  }

  method AddTable(before: Table, more: Table) returns (transitions: Table)
    ensures transitions == before + more
  {
    transitions := before;
    var rest := more.Keys;
    while rest != {}
      invariant rest <= more.Keys
      invariant transitions.Keys == before.Keys + (more.Keys - rest)
      invariant forall k | k in transitions :: transitions[k] == if k in more && k !in rest then more[k] else before[k]
      decreases |rest|
    {
      var key :| key in rest;
      transitions := transitions[key := more[key]];
      rest := rest - {key};
    }
  }

  method CompleteAfter(contexts: seq<Context>, tokens: seq<string>) returns (candidates: Option<seq<string>>)
    ensures candidates == Lookup(contexts, Walk(Merged(contexts, |contexts|), tokens, |tokens|))
  {
    var transitions := AllTransitions(contexts);
    var context := "";
    for i := 0 to |tokens|
      invariant context == Walk(transitions, tokens, i)
    {
      if Key(context, tokens[i]) in transitions {
        context := transitions[Key(context, tokens[i])];
      }
    }
    candidates := Lookup(contexts, context);
  }

  /* What the tree itself says. */

  function ChildNamed(children: seq<Node>, n: nat, token: string): Option<Node>
    requires n <= |children|
  {
    if n == 0 then None
    else if ChildNamed(children, n - 1, token).Some? then ChildNamed(children, n - 1, token)
    else if token in children[n - 1].names then Some(children[n - 1])
    else None
  }

  function Descend(node: Node, token: string): Option<Node> { ChildNamed(node.children, |node.children|, token) }

  /** The node after some tokens; tokens that name no subcommand stay at the node. */
  function TreeWalk(root: Node, tokens: seq<string>, n: nat): Node
    requires n <= |tokens|
  {
    if n == 0 then root
    else
      var node := TreeWalk(root, tokens, n - 1);
      var child := Descend(node, tokens[n - 1]);
      if child.Some? then child.value else node
  }

  predicate IsWord(s: string) { s != "" && forall i | 0 <= i < |s| :: !IsSpace(s[i]) && s[i] != '|' }

  predicate Words(ws: seq<string>) { forall i | 0 <= i < |ws| :: IsWord(ws[i]) }

  /** Names are words, and no two siblings share one. */
  ghost predicate WellNamed(node: Node)
    decreases node
  {
    && (forall i | 0 <= i < |node.children| :: Words(node.children[i].names))
    && (forall i, j | 0 <= i < j < |node.children| :: Disjoint(node.children[i].names, node.children[j].names))
    && (forall i | 0 <= i < |node.children| :: WellNamed(node.children[i]))
  }

  ghost predicate Disjoint(a: seq<string>, b: seq<string>) { forall s | s in a :: s !in b }

  /* Paths of words. */

  function Join(ws: seq<string>): string {
    if ws == [] then ""
    else if |ws| == 1 then ws[0]
    else Join(ws[..|ws| - 1]) + " " + ws[|ws| - 1]
  }

  lemma {:induction false} JoinEnds(ws: seq<string>)
    requires Words(ws) && ws != []
    ensures var s := Join(ws);
      s != "" && !IsSpace(s[0]) && !IsSpace(s[|s| - 1]) && '|' !in s
  {
    var last := ws[|ws| - 1];
    assert !IsSpace(last[|last| - 1]);
    if |ws| > 1 {
      JoinEnds(ws[..|ws| - 1]);
    }
  }

  lemma TrimWord(s: string)
    requires s != "" && !IsSpace(s[0]) && !IsSpace(s[|s| - 1])
    ensures TrimSpace(s) == s
  {
  }

  lemma TrimOneSpace(s: string)
    requires s != "" && !IsSpace(s[0])
    ensures TrimLeft(" " + s) == s
  {
    assert (" " + s)[1..] == s;
    assert TrimLeft(" " + s) == TrimLeft(s);
  }

  /** The path of a child is its parent's words and its own name. */
  lemma ExtendedJoin(ws: seq<string>, name: string)
    requires Words(ws) && IsWord(name)
    ensures Extended(Join(ws), name) == Join(ws + [name])
  {
    hide TrimSpace;
    assert (ws + [name])[..|ws|] == ws;
    assert Words([name]);
    if ws == [] {
      assert "" + " " + name == " " + name;
      assert TrimSpace(" " + name) == TrimSpace(name) by { TrimOneSpaceOff(name); }
      TrimWord(name);
    } else {
      assert Words(ws + [name]);
      JoinEnds(ws + [name]);
      TrimWord(Join(ws + [name]));
    }
  }

  lemma TrimOneSpaceOff(s: string)
    requires IsWord(s)
    ensures TrimSpace(" " + s) == TrimSpace(s)
  {
    TrimOneSpace(s);
    assert TrimLeft(s) == s;
  }

  function LastSpace(s: string): int {
    if s == "" then -1 else if s[|s| - 1] == ' ' then |s| - 1 else LastSpace(s[..|s| - 1])
  }

  lemma {:induction false} WordHasNoSpace(w: string)
    requires forall i | 0 <= i < |w| :: !IsSpace(w[i])
    ensures LastSpace(w) == -1
  {
    if w != "" {
      WordHasNoSpace(w[..|w| - 1]);
    }
  }

  lemma {:induction false} SpaceBeforeWord(a: string, w: string)
    requires forall i | 0 <= i < |w| :: !IsSpace(w[i])
    ensures LastSpace(a + " " + w) == |a|
  {
    var s := a + " " + w;
    if w != "" {
      assert s[..|s| - 1] == a + " " + w[..|w| - 1];
      SpaceBeforeWord(a, w[..|w| - 1]);
    }
  }

  lemma LastWord(a: string, b: string, v: string, w: string)
    requires IsWord(v) && IsWord(w) && a + " " + v == b + " " + w
    ensures a == b && v == w
  {
    SpaceBeforeWord(a, v);
    SpaceBeforeWord(b, w);
    var s := a + " " + v;
    assert s[..|a|] == a && s[|a| + 1..] == v;
    assert s[..|a|] == b && s[|a| + 1..] == w;
  }

  lemma NoSpaceInWord(a: string, v: string, w: string)
    requires IsWord(v) && IsWord(w)
    ensures a + " " + v != w
  {
    SpaceBeforeWord(a, v);
    WordHasNoSpace(w);
  }

  /** A path determines its words. */
  lemma {:induction false} JoinInjective(a: seq<string>, b: seq<string>)
    requires Words(a) && Words(b) && Join(a) == Join(b)
    ensures a == b
  {
    if a == [] || b == [] {
      if a != [] {
        JoinEnds(a);
      }
      if b != [] {
        JoinEnds(b);
      }
    } else {
      var frontA, frontB := a[..|a| - 1], b[..|b| - 1];
      assert a == frontA + [a[|a| - 1]] && b == frontB + [b[|b| - 1]];
      if |a| == 1 && |b| > 1 {
        NoSpaceInWord(Join(frontB), b[|b| - 1], a[0]);
      } else if |b| == 1 && |a| > 1 {
        NoSpaceInWord(Join(frontA), a[|a| - 1], b[0]);
      } else if |a| > 1 {
        LastWord(Join(frontA), Join(frontB), a[|a| - 1], b[|b| - 1]);
        JoinInjective(frontA, frontB);
      }
    }
  }

  function FirstBar(s: string): nat {
    if s == "" || s[0] == '|' then 0 else 1 + FirstBar(s[1..])
  }

  lemma {:induction false} BarInKey(context: string, token: string)
    requires '|' !in context
    ensures FirstBar(Key(context, token)) == |context|
  {
    if context != "" {
      assert Key(context, token)[1..] == Key(context[1..], token);
      BarInKey(context[1..], token);
    }
  }

  /** A key determines its context and its token, whatever the token. */
  lemma KeyInjective(a: string, b: string, s: string, t: string)
    requires '|' !in a && '|' !in b && Key(a, s) == Key(b, t)
    ensures a == b && s == t
  {
    BarInKey(a, s);
    BarInKey(b, t);
    var k := Key(a, s);
    assert k[..|a|] == a && k[|a| + 1..] == s;
    assert k[..|a|] == b && k[|a| + 1..] == t;
  }

  lemma JoinHasNoBar(ws: seq<string>)
    requires Words(ws)
    ensures '|' !in Join(ws)
  {
    if ws != [] {
      JoinEnds(ws);
    }
  }

  /* Where the nodes of a tree are. */

  /** The node a list of subcommand names leads to. */
  function Locate(root: Node, ws: seq<string>): Option<Node> {
    if ws == [] then Some(root)
    else
      var parent := Locate(root, ws[..|ws| - 1]);
      if parent.None? then None else Descend(parent.value, ws[|ws| - 1])
  }

  ghost predicate Placed(root: Node, node: Node, path: string, ws: seq<string>) {
    Words(ws) && Locate(root, ws) == Some(node) && path == Join(ws)
  }

  ghost predicate AllPlaced(root: Node, node: Node, paths: seq<string>) {
    forall p | p in paths :: exists ws :: Placed(root, node, p, ws)
  }

  lemma {:induction false} ChildIsNamed(node: Node, n: nat, k: nat, name: string)
    requires WellNamed(node) && k < n <= |node.children| && name in node.children[k].names
    ensures ChildNamed(node.children, n, name) == Some(node.children[k])
  {
    if n - 1 == k {
      NotAmong(node, k, k, name);
    } else {
      ChildIsNamed(node, n - 1, k, name);
    }
  }

  lemma {:induction false} NotAmong(node: Node, n: nat, k: nat, name: string)
    requires WellNamed(node) && n <= k < |node.children| && name in node.children[k].names
    ensures ChildNamed(node.children, n, name) == None
  {
    if n > 0 {
      NotAmong(node, n - 1, k, name);
      assert Disjoint(node.children[n - 1].names, node.children[k].names);
    }
  }

  lemma {:induction false} NamedIsChild(children: seq<Node>, n: nat, name: string) returns (k: nat)
    requires n <= |children| && ChildNamed(children, n, name).Some?
    ensures k < n && name in children[k].names && ChildNamed(children, n, name) == Some(children[k])
  {
    if ChildNamed(children, n - 1, name).Some? {
      k := NamedIsChild(children, n - 1, name);
    } else {
      k := n - 1;
    }
  }

  lemma {:induction false} ChildPathFrom(paths: seq<string>, n: nat, names: seq<string>, q: string)
    returns (p: nat, k: nat)
    requires n <= |paths| && q in ChildPaths(paths, n, names)
    ensures p < n && k < |names| && q == Extended(paths[p], names[k])
  {
    if q in ChildPaths(paths, n - 1, names) {
      p, k := ChildPathFrom(paths, n - 1, names, q);
    } else {
      p := n - 1;
      k :| 0 <= k < |names| && Named(paths[p], names)[k] == q;
    }
  }

  lemma {:induction false} ChildPathIn(paths: seq<string>, n: nat, names: seq<string>, p: nat, k: nat)
    requires p < n <= |paths| && k < |names|
    ensures Extended(paths[p], names[k]) in ChildPaths(paths, n, names)
  {
    if p < n - 1 {
      ChildPathIn(paths, n - 1, names, p, k);
    } else {
      assert Named(paths[p], names)[k] == Extended(paths[p], names[k]);
    }
  }

  /** A child is where its parent is, and its own name. */
  lemma PlacedBelow(root: Node, node: Node, path: string, ws: seq<string>, k: nat, name: string)
    requires WellNamed(node) && Placed(root, node, path, ws) && k < |node.children| && name in node.children[k].names
    ensures Placed(root, node.children[k], Extended(path, name), ws + [name])
  {
    assert Words(node.children[k].names);
    assert (ws + [name])[..|ws|] == ws;
    ChildIsNamed(node, |node.children|, k, name);
    ExtendedJoin(ws, name);
  }

  lemma PlaceOf(root: Node, node: Node, paths: seq<string>, p: nat) returns (ws: seq<string>)
    requires AllPlaced(root, node, paths) && p < |paths|
    ensures Placed(root, node, paths[p], ws)
  {
    assert paths[p] in paths;
    ws :| Placed(root, node, paths[p], ws);
  }

  lemma ChildPlaced(root: Node, node: Node, paths: seq<string>, k: nat, q: string) returns (ws: seq<string>)
    requires WellNamed(node) && AllPlaced(root, node, paths) && k < |node.children|
    requires q in ChildPaths(paths, |paths|, node.children[k].names)
    ensures Placed(root, node.children[k], q, ws)
  {
    hide WellNamed, Placed, Extended, ChildPaths;
    var names := node.children[k].names;
    var p, i := ChildPathFrom(paths, |paths|, names, q);
    var at := PlaceOf(root, node, paths, p);
    PlacedBelow(root, node, paths[p], at, k, names[i]);
    ws := at + [names[i]];
  }

  lemma ChildrenPlaced(root: Node, node: Node, paths: seq<string>, k: nat)
    requires WellNamed(node) && AllPlaced(root, node, paths) && k < |node.children|
    ensures AllPlaced(root, node.children[k], ChildPaths(paths, |paths|, node.children[k].names))
  {
    hide WellNamed, Placed, ChildPaths;
    forall q | q in ChildPaths(paths, |paths|, node.children[k].names)
      ensures exists ws :: Placed(root, node.children[k], q, ws)
    {
      var ws := ChildPlaced(root, node, paths, k, q);
    }
  }

  lemma WellNamedBelow(node: Node, k: nat)
    requires WellNamed(node) && k < |node.children|
    ensures WellNamed(node.children[k])
  {
  }

  /* Every context belongs to a node. */

  /** A context that stands for the node its path leads to. */
  ghost predicate Stands(root: Node, c: Context, ws: seq<string>) {
    Words(ws) && Locate(root, ws).Some? && c.path == Join(ws) && c.candidates == Candidates(Locate(root, ws).value)
  }

  lemma {:induction false} OwnStands(root: Node, node: Node, paths: seq<string>, n: nat, c: Context)
    returns (ws: seq<string>)
    requires n <= |paths| && AllPlaced(root, node, paths) && c in Own(node, paths, n)
    ensures Stands(root, c, ws)
  {
    hide AllPlaced, Candidates, Transitions;
    if c in Own(node, paths, n - 1) {
      ws := OwnStands(root, node, paths, n - 1, c);
    } else {
      ws := PlaceOf(root, node, paths, n - 1);
    }
  }

  lemma {:induction false} FlatStands(root: Node, node: Node, paths: seq<string>, c: Context) returns (ws: seq<string>)
    requires WellNamed(node) && AllPlaced(root, node, paths) && c in Flat(node, paths)
    ensures Stands(root, c, ws)
    decreases node, |node.children| + 1
  {
    hide WellNamed, AllPlaced, Stands, Own, Below;
    if c in Own(node, paths, |paths|) {
      ws := OwnStands(root, node, paths, |paths|, c);
    } else {
      ws := BelowStands(root, node, paths, |node.children|, c);
    }
  }

  lemma {:induction false} BelowStands(root: Node, node: Node, paths: seq<string>, n: nat, c: Context)
    returns (ws: seq<string>)
    requires WellNamed(node) && AllPlaced(root, node, paths) && n <= |node.children| && c in Below(node, paths, n)
    ensures Stands(root, c, ws)
    decreases node, n
  {
    hide WellNamed, AllPlaced, Stands, Flat;
    if c in Below(node, paths, n - 1) {
      ws := BelowStands(root, node, paths, n - 1, c);
    } else {
      ChildrenPlaced(root, node, paths, n - 1);
      WellNamedBelow(node, n - 1);
      ws := FlatStands(root, node.children[n - 1], ChildPaths(paths, |paths|, node.children[n - 1].names), c);
    }
  }

  /* Every transition leads from a node to its child. */

  /** A table entry that says where a word leads from a node. */
  ghost predicate Leads(root: Node, key: string, target: string, ws: seq<string>, name: string) {
    Words(ws) && IsWord(name) && Locate(root, ws + [name]).Some? && key == Key(Join(ws), name)
      && target == Join(ws + [name])
  }

  lemma {:induction false} FromName(path: string, names: seq<string>, n: nat, key: string) returns (k: nat)
    requires n <= |names| && key in ByName(path, names, n)
    ensures k < n && key == Key(path, names[k]) && ByName(path, names, n)[key] == Extended(path, names[k])
  {
    hide Key, Extended;
    if key == Key(path, names[n - 1]) {
      k := n - 1;
    } else {
      k := FromName(path, names, n - 1, key);
    }
  }

  lemma {:induction false} FromPath(paths: seq<string>, n: nat, names: seq<string>, key: string)
    returns (p: nat, k: nat)
    requires n <= |paths| && key in ByPath(paths, n, names)
    ensures p < n && k < |names| && key == Key(paths[p], names[k])
    ensures ByPath(paths, n, names)[key] == Extended(paths[p], names[k])
  {
    hide Key, Extended, ByName;
    if key in ByName(paths[n - 1], names, |names|) {
      p := n - 1;
      k := FromName(paths[p], names, |names|, key);
    } else {
      p, k := FromPath(paths, n - 1, names, key);
    }
  }

  lemma {:induction false} FromChild(paths: seq<string>, children: seq<Node>, n: nat, key: string)
    returns (c: nat, p: nat, k: nat)
    requires n <= |children| && key in Transitions(paths, children, n)
    ensures c < n && p < |paths| && k < |children[c].names| && key == Key(paths[p], children[c].names[k])
    ensures Transitions(paths, children, n)[key] == Extended(paths[p], children[c].names[k])
  {
    hide Key, Extended, ByPath;
    if key in ByPath(paths, |paths|, children[n - 1].names) {
      c := n - 1;
      p, k := FromPath(paths, |paths|, children[c].names, key);
    } else {
      c, p, k := FromChild(paths, children, n - 1, key);
    }
  }

  lemma EdgesLead(root: Node, node: Node, paths: seq<string>, key: string) returns (ws: seq<string>, name: string)
    requires WellNamed(node) && AllPlaced(root, node, paths)
      && key in Transitions(paths, node.children, |node.children|)
    ensures Leads(root, key, Transitions(paths, node.children, |node.children|)[key], ws, name)
  {
    hide Key, Extended, Transitions, Disjoint;
    var c, p, k := FromChild(paths, node.children, |node.children|, key);
    name := node.children[c].names[k];
    ws := PlaceOf(root, node, paths, p);
    PlacedBelow(root, node, paths[p], ws, c, name);
    assert Words(node.children[c].names);
  }

  lemma {:induction false} OwnEdges(node: Node, paths: seq<string>, n: nat, c: Context)
    requires n <= |paths| && c in Own(node, paths, n)
    ensures c.transitions == Transitions(paths, node.children, |node.children|)
  {
    if c !in Own(node, paths, n - 1) {
      assert c == Own(node, paths, n)[|Own(node, paths, n)| - 1];
    } else {
      OwnEdges(node, paths, n - 1, c);
    }
  }

  lemma {:induction false} FlatLeads(root: Node, node: Node, paths: seq<string>, c: Context, key: string)
    returns (ws: seq<string>, name: string)
    requires WellNamed(node) && AllPlaced(root, node, paths) && c in Flat(node, paths) && key in c.transitions
    ensures Leads(root, key, c.transitions[key], ws, name)
    decreases node, |node.children| + 1
  {
    hide WellNamed, AllPlaced, Leads, Own, Below, Transitions;
    if c in Own(node, paths, |paths|) {
      OwnEdges(node, paths, |paths|, c);
      ws, name := EdgesLead(root, node, paths, key);
    } else {
      ws, name := BelowLeads(root, node, paths, |node.children|, c, key);
    }
  }

  lemma {:induction false} BelowLeads(root: Node, node: Node, paths: seq<string>, n: nat, c: Context, key: string)
    returns (ws: seq<string>, name: string)
    requires WellNamed(node) && AllPlaced(root, node, paths) && n <= |node.children|
    requires c in Below(node, paths, n) && key in c.transitions
    ensures Leads(root, key, c.transitions[key], ws, name)
    decreases node, n
  {
    hide WellNamed, AllPlaced, Leads, Flat;
    if c in Below(node, paths, n - 1) {
      ws, name := BelowLeads(root, node, paths, n - 1, c, key);
    } else {
      ChildrenPlaced(root, node, paths, n - 1);
      WellNamedBelow(node, n - 1);
      ws, name := FlatLeads(root, node.children[n - 1], ChildPaths(paths, |paths|, node.children[n - 1].names), c, key);
    }
  }

  /* Every node has its contexts and transitions. */

  lemma {:induction false} BelowIn(node: Node, paths: seq<string>, n: nat, k: nat, c: Context)
    requires k < n <= |node.children|
    requires c in Flat(node.children[k], ChildPaths(paths, |paths|, node.children[k].names))
    ensures c in Below(node, paths, n)
  {
    hide Flat, ChildPaths;
    if k < n - 1 {
      BelowIn(node, paths, n - 1, k, c);
    }
  }

  lemma {:induction false} OwnIn(node: Node, paths: seq<string>, n: nat, p: nat)
    requires p < n <= |paths|
    ensures Context(paths[p], Candidates(node), Transitions(paths, node.children, |node.children|))
      in Own(node, paths, n)
  {
    hide Candidates, Transitions;
    if p < n - 1 {
      OwnIn(node, paths, n - 1, p);
    }
  }

  /** The node a list of names leads to is flattened, under paths that hold the one of the list. */
  lemma {:induction false} Visited(root: Node, ws: seq<string>) returns (paths: seq<string>, p: nat)
    requires WellNamed(root) && Locate(root, ws).Some?
    ensures Words(ws) && WellNamed(Locate(root, ws).value)
    ensures p < |paths| && paths[p] == Join(ws)
    ensures forall c | c in Flat(Locate(root, ws).value, paths) :: c in Flat(root, [""])
  {
    hide WellNamed, Extended, ChildPaths, Own, Below;
    if ws == [] {
      paths, p := [""], 0;
    } else {
      var front, name := ws[..|ws| - 1], ws[|ws| - 1];
      var above, at := Visited(root, front);
      var node := Locate(root, front).value;
      var k := NamedIsChild(node.children, |node.children|, name);
      ChildNamesAreWords(node, k);
      WellNamedBelow(node, k);
      assert ws == front + [name];
      ExtendedJoin(front, name);
      var i :| 0 <= i < |node.children[k].names| && node.children[k].names[i] == name;
      paths := ChildPaths(above, |above|, node.children[k].names);
      ChildPathIn(above, |above|, node.children[k].names, at, i);
      p :| 0 <= p < |paths| && paths[p] == Extended(above[at], name);
      forall c | c in Flat(node.children[k], paths) ensures c in Flat(root, [""]) {
        BelowIn(node, above, |node.children|, k, c);
        assert c in Flat(node, above);
      }
    }
  }

  lemma ChildNamesAreWords(node: Node, k: nat)
    requires WellNamed(node) && k < |node.children|
    ensures Words(node.children[k].names)
  {
  }

  lemma NodeHasContext(root: Node, ws: seq<string>) returns (c: Context)
    requires WellNamed(root) && Locate(root, ws).Some?
    ensures c in Flat(root, [""]) && c.path == Join(ws) && c.candidates == Candidates(Locate(root, ws).value)
    ensures forall name | Locate(root, ws + [name]).Some? :: Key(Join(ws), name) in c.transitions
  {
    hide WellNamed, Own, Below, Key, Candidates, Transitions;
    var paths, p := Visited(root, ws);
    var node := Locate(root, ws).value;
    c := Context(paths[p], Candidates(node), Transitions(paths, node.children, |node.children|));
    OwnIn(node, paths, |paths|, p);
    assert c in Flat(node, paths);
    forall name | Locate(root, ws + [name]).Some? ensures Key(Join(ws), name) in c.transitions {
      assert (ws + [name])[..|ws|] == ws;
      var k := NamedIsChild(node.children, |node.children|, name);
      ToChild(paths, node.children, |node.children|, k, p, name);
    }
  }

  lemma {:induction false} ToName(path: string, names: seq<string>, n: nat, k: nat)
    requires k < n <= |names|
    ensures Key(path, names[k]) in ByName(path, names, n)
  {
    hide Key, Extended;
    if k < n - 1 {
      ToName(path, names, n - 1, k);
    }
  }

  lemma {:induction false} ToPath(paths: seq<string>, n: nat, names: seq<string>, p: nat, k: nat)
    requires p < n <= |paths| && k < |names|
    ensures Key(paths[p], names[k]) in ByPath(paths, n, names)
  {
    hide Key, ByName;
    if p < n - 1 {
      ToPath(paths, n - 1, names, p, k);
    } else {
      ToName(paths[p], names, |names|, k);
    }
  }

  lemma {:induction false} ToChild(paths: seq<string>, children: seq<Node>, n: nat, c: nat, p: nat, name: string)
    requires c < n <= |children| && p < |paths| && name in children[c].names
    ensures Key(paths[p], name) in Transitions(paths, children, n)
  {
    hide Key, ByPath;
    if c < n - 1 {
      ToChild(paths, children, n - 1, c, p, name);
    } else {
      var k :| 0 <= k < |children[c].names| && children[c].names[k] == name;
      ToPath(paths, |paths|, children[c].names, p, k);
    }
  }

  /* The merged table. */

  lemma {:induction false} FromContext(contexts: seq<Context>, n: nat, key: string) returns (i: nat)
    requires n <= |contexts| && key in Merged(contexts, n)
    ensures i < n && key in contexts[i].transitions && Merged(contexts, n)[key] == contexts[i].transitions[key]
  {
    if key in contexts[n - 1].transitions {
      i := n - 1;
    } else {
      i := FromContext(contexts, n - 1, key);
    }
  }

  lemma {:induction false} InMerged(contexts: seq<Context>, n: nat, i: nat, key: string)
    requires i < n <= |contexts| && key in contexts[i].transitions
    ensures key in Merged(contexts, n)
  {
    if i < n - 1 {
      InMerged(contexts, n - 1, i, key);
    }
  }

  /** The contexts of a tree, in the order some sort left them. */
  ghost predicate SortOf(contexts: seq<Context>, root: Node) {
    forall c :: c in contexts <==> c in Flat(root, [""])
  }

  lemma RootPlaced(root: Node)
    ensures AllPlaced(root, root, [""])
  {
    assert Placed(root, root, "", []);
  }

  lemma TableLeads(contexts: seq<Context>, root: Node, key: string) returns (ws: seq<string>, name: string)
    requires WellNamed(root) && SortOf(contexts, root) && key in Merged(contexts, |contexts|)
    ensures Leads(root, key, Merged(contexts, |contexts|)[key], ws, name)
  {
    hide WellNamed, Flat, Leads, AllPlaced;
    var i := FromContext(contexts, |contexts|, key);
    assert contexts[i] in contexts;
    RootPlaced(root);
    ws, name := FlatLeads(root, root, [""], contexts[i], key);
  }

  /** From the context of a node a token leads to the child it names, and nowhere if it names none. */
  lemma TableIsTree(contexts: seq<Context>, root: Node, ws: seq<string>, token: string)
    requires WellNamed(root) && SortOf(contexts, root) && Words(ws) && Locate(root, ws).Some?
    ensures var table := Merged(contexts, |contexts|);
      && (Key(Join(ws), token) in table <==> Locate(root, ws + [token]).Some?)
      && (Key(Join(ws), token) in table ==> table[Key(Join(ws), token)] == Join(ws + [token]) && IsWord(token))
  {
    hide WellNamed, Flat, Key, Join, Merged, Locate, IsWord;
    var table, key := Merged(contexts, |contexts|), Key(Join(ws), token);
    if key in table {
      var ws', name := TableLeads(contexts, root, key);
      JoinHasNoBar(ws);
      JoinHasNoBar(ws');
      KeyInjective(Join(ws), Join(ws'), token, name);
      JoinInjective(ws, ws');
    }
    if Locate(root, ws + [token]).Some? {
      var c := NodeHasContext(root, ws);
      var i :| 0 <= i < |contexts| && contexts[i] == c;
      InMerged(contexts, |contexts|, i, key);
    }
  }

  /** The tokens that name subcommands, from the root down. */
  function Taken(root: Node, tokens: seq<string>, n: nat): seq<string>
    requires n <= |tokens|
  {
    if n == 0 then []
    else
      var ws := Taken(root, tokens, n - 1);
      if Locate(root, ws + [tokens[n - 1]]).Some? then ws + [tokens[n - 1]] else ws
  }

  /** The walk over the table and the walk over the tree stay together. */
  lemma {:induction false} WalksAgree(contexts: seq<Context>, root: Node, tokens: seq<string>, n: nat)
    requires WellNamed(root) && SortOf(contexts, root) && n <= |tokens|
    ensures var ws := Taken(root, tokens, n);
      && Words(ws) && Locate(root, ws) == Some(TreeWalk(root, tokens, n))
      && Walk(Merged(contexts, |contexts|), tokens, n) == Join(ws)
  {
    hide WellNamed, Flat, Key, Join, Merged, IsWord, SortOf, Locate, Descend, Words;
    if n > 0 {
      WalksAgree(contexts, root, tokens, n - 1);
      var ws, token := Taken(root, tokens, n - 1), tokens[n - 1];
      TableIsTree(contexts, root, ws, token);
      LocateSnoc(root, ws, token);
      if Locate(root, ws + [token]).Some? {
        WordsSnoc(ws, token);
      }
    } else {
      EmptyPath(root);
    }
  }

  lemma LocateSnoc(root: Node, ws: seq<string>, token: string)
    requires Locate(root, ws).Some?
    ensures Locate(root, ws + [token]) == Descend(Locate(root, ws).value, token)
  {
    assert (ws + [token])[..|ws|] == ws;
  }

  lemma WordsSnoc(ws: seq<string>, token: string)
    requires Words(ws) && IsWord(token)
    ensures Words(ws + [token])
  {
  }

  lemma EmptyPath(root: Node)
    ensures Words([]) && Locate(root, []) == Some(root) && Join([]) == ""
  {
  }

  lemma {:induction false} LookupFinds(contexts: seq<Context>, path: string, candidates: seq<string>)
    requires forall c | c in contexts && c.path == path :: c.candidates == candidates
    requires exists c :: c in contexts && c.path == path
    ensures Lookup(contexts, path) == Some(candidates)
  {
    if contexts[0].path != path {
      var c :| c in contexts && c.path == path;
      assert c in contexts[1..];
      assert forall d | d in contexts[1..] :: d in contexts;
      LookupFinds(contexts[1..], path, candidates);
    } else {
      assert contexts[0] in contexts;
    }
  }

  /** For every well-named tree, any order of its contexts and any tokens, the flattened table offers
      exactly what the tree offers at the node its own walk reaches. */
  lemma CompletionsAgree(contexts: seq<Context>, root: Node, tokens: seq<string>)
    requires WellNamed(root) && SortOf(contexts, root)
    ensures Lookup(contexts, Walk(Merged(contexts, |contexts|), tokens, |tokens|))
         == Some(Candidates(TreeWalk(root, tokens, |tokens|)))
  {
    hide WellNamed, Flat, Merged, Walk, Candidates, Locate, Join, IsWord, AllPlaced, Lookup;
    WalksAgree(contexts, root, tokens, |tokens|);
    var ws := Taken(root, tokens, |tokens|);
    var found := NodeHasContext(root, ws);
    RootPlaced(root);
    forall c | c in contexts && c.path == Join(ws) ensures c.candidates == Candidates(Locate(root, ws).value) {
      var ws' := FlatStands(root, root, [""], c);
      JoinInjective(ws, ws');
    }
    LookupFinds(contexts, Join(ws), Candidates(Locate(root, ws).value));
  }

  /** Every target of the table is the path of a context. */
  lemma TargetsAreContexts(contexts: seq<Context>, root: Node, key: string)
    requires WellNamed(root) && SortOf(contexts, root) && key in Merged(contexts, |contexts|)
    ensures exists c :: c in contexts && c.path == Merged(contexts, |contexts|)[key]
  {
    hide WellNamed, Flat, Merged, Locate, Join, Key;
    var ws, name := TableLeads(contexts, root, key);
    var c := NodeHasContext(root, ws + [name]);
  }
}
