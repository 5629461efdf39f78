/**
 Custom properties folded into the values that use them. A value is text and var()
 references, so that splicing one value into another cannot make a reference that was in
 neither.
 */
module CssVars {
  import opened Basics

  datatype Node = Text(text: string) | Var(name: string) | VarOr(name: string, fallback: seq<Node>)

  type Value = seq<Node>
  type Tokens = map<string, Value>

  /** What a pass leaves: the text and the names that stayed behind. */
  datatype Pass = Pass(out: Value, stuck: set<string>)

  function Resolve(value: Value, tokens: Tokens, stack: set<string>): Pass
    decreases tokens.Keys - stack, value
  {
    if value == [] then Pass([], {})
    else
      var first, rest := ResolveNode(value[0], tokens, stack), Resolve(value[1..], tokens, stack);
      Pass(first.out + rest.out, first.stuck + rest.stuck)
  }

  function ResolveNode(node: Node, tokens: Tokens, stack: set<string>): Pass
    decreases tokens.Keys - stack, node
  {
    if node.Text? then Pass([node], {})
    else if node.name in stack then Pass([node], {node.name})
    else if node.name in tokens then
      assert node.name in tokens.Keys - stack;
      Resolve(tokens[node.name], tokens, stack + {node.name})
    else if node.VarOr? then Resolve(node.fallback, tokens, stack)
    else Pass([node], {node.name})
  }

  /** The names of the references a value still shows. */
  function Remaining(value: Value): set<string> {
    set node | node in value && !node.Text? :: node.name
  }

  /* ----- What stays is exactly what is stuck ----- */

  lemma RemainingJoins(a: Value, b: Value)
    ensures Remaining(a + b) == Remaining(a) + Remaining(b)
  {
    assert forall node :: node in a + b <==> node in a || node in b;
  }

  /** The references left in the result are exactly the stuck names; so nothing is stuck
      exactly when the result is plain text. */
  lemma {:induction false} StuckIsRemaining(value: Value, tokens: Tokens, stack: set<string>)
    ensures Remaining(Resolve(value, tokens, stack).out) == Resolve(value, tokens, stack).stuck
    decreases tokens.Keys - stack, value
  {
    if value != [] {
      NodeStuckIsRemaining(value[0], tokens, stack);
      StuckIsRemaining(value[1..], tokens, stack);
      RemainingJoins(ResolveNode(value[0], tokens, stack).out, Resolve(value[1..], tokens, stack).out);
    }
  }

  lemma {:induction false} NodeStuckIsRemaining(node: Node, tokens: Tokens, stack: set<string>)
    ensures Remaining(ResolveNode(node, tokens, stack).out) == ResolveNode(node, tokens, stack).stuck
    decreases tokens.Keys - stack, node
  {
    if node.Text? || node.name in stack {
      assert node in [node];
    } else if node.name in tokens {
      assert node.name in tokens.Keys - stack;
      StuckIsRemaining(tokens[node.name], tokens, stack + {node.name});
    } else if node.VarOr? {
      StuckIsRemaining(node.fallback, tokens, stack);
    } else {
      assert node in [node];
    }
  }

  /* ----- Why a name is stuck ----- */

  /** The names a value leads to; a fallback counts only where its name is undefined. */
  function Refs(value: Value, tokens: Tokens): set<string> {
    if value == [] then {} else NodeRefs(value[0], tokens) + Refs(value[1..], tokens)
  }

  function NodeRefs(node: Node, tokens: Tokens): set<string> {
    match node
    case Text(_) => {}
    case Var(name) => {name}
    case VarOr(name, fallback) => {name} + (if name in tokens then {} else Refs(fallback, tokens))
  }

  /** Each name of the path is defined, all but the last in terms of the next. */
  ghost predicate Chain(path: seq<string>, tokens: Tokens) {
    && (forall i :: 0 <= i < |path| ==> path[i] in tokens)
    && (forall i :: 0 <= i < |path| - 1 ==> path[i + 1] in Refs(tokens[path[i]], tokens))
  }

  ghost predicate OnCycle(name: string, tokens: Tokens) {
    exists path :: |path| >= 2 && path[0] == name && path[|path| - 1] == name && Chain(path, tokens)
  }

  ghost predicate Explained(name: string, tokens: Tokens) {
    name !in tokens || OnCycle(name, tokens)
  }

  /** What is being resolved belongs to the last name of the path. */
  ghost predicate Within(refs: set<string>, tokens: Tokens, path: seq<string>) {
    Chain(path, tokens) && (path != [] ==> refs <= Refs(tokens[path[|path| - 1]], tokens))
  }

  lemma CycleCloses(name: string, tokens: Tokens, path: seq<string>, k: nat)
    requires Within({name}, tokens, path) && k < |path| && path[k] == name
    ensures OnCycle(name, tokens)
  {
    var cycle := path[k..] + [name];
    assert Chain(cycle, tokens);
  }

  lemma PathGrows(name: string, tokens: Tokens, path: seq<string>)
    requires Within({name}, tokens, path) && name in tokens
    ensures Within(Refs(tokens[name], tokens), tokens, path + [name])
  {
  }

  lemma {:induction false} PassExplained(value: Value, tokens: Tokens, path: seq<string>, stack: set<string>)
    requires stack == (set n | n in path) && Within(Refs(value, tokens), tokens, path)
    ensures forall n :: n in Resolve(value, tokens, stack).stuck ==> Explained(n, tokens)
    decreases tokens.Keys - stack, value
  {
    if value != [] {
      NodeExplained(value[0], tokens, path, stack);
      PassExplained(value[1..], tokens, path, stack);
    }
  }

  lemma {:induction false} NodeExplained(node: Node, tokens: Tokens, path: seq<string>, stack: set<string>)
    requires stack == (set n | n in path) && Within(NodeRefs(node, tokens), tokens, path)
    ensures forall n :: n in ResolveNode(node, tokens, stack).stuck ==> Explained(n, tokens)
    decreases tokens.Keys - stack, node
  {
    if !node.Text? {
      if node.name in stack {
        var k :| 0 <= k < |path| && path[k] == node.name;
        CycleCloses(node.name, tokens, path, k);
      } else if node.name in tokens {
        assert node.name in tokens.Keys - stack;
        PathGrows(node.name, tokens, path);
        assert stack + {node.name} == (set n | n in path + [node.name]);
        PassExplained(tokens[node.name], tokens, path + [node.name], stack + {node.name});
      } else if node.VarOr? {
        PassExplained(node.fallback, tokens, path, stack);
      }
    }
  }

  datatype Diagnosis = CyclicAlias | UnknownProperty

  function Diagnose(name: string, tokens: Tokens): Diagnosis {
    if name in tokens then CyclicAlias else UnknownProperty
  }

  /** Every stuck name is undefined, or lies on a cycle of references; the diagnosis says
      which. */
  lemma StuckIsDiagnosed(value: Value, tokens: Tokens, name: string)
    requires name in Resolve(value, tokens, {}).stuck
    ensures Diagnose(name, tokens).CyclicAlias? ==> OnCycle(name, tokens)
    ensures Diagnose(name, tokens).UnknownProperty? ==> name !in tokens
  {
    PassExplained(value, tokens, [], {});
  }

  /* ----- Agreement with plain substitution ----- */

  function Join(a: Option<Value>, b: Option<Value>): Option<Value> {
    if a.Some? && b.Some? then Some(a.value + b.value) else None
  }

  /** Substitution to at most `depth` definitions deep, and no value at all past it or at
      an undefined name. */
  function Expand(value: Value, tokens: Tokens, depth: nat): Option<Value>
    decreases depth, value
  {
    if value == [] then Some([]) else Join(ExpandNode(value[0], tokens, depth), Expand(value[1..], tokens, depth))
  }

  function ExpandNode(node: Node, tokens: Tokens, depth: nat): Option<Value>
    decreases depth, node
  {
    if node.Text? then Some([node])
    else if node.name in tokens then (if depth == 0 then None else Expand(tokens[node.name], tokens, depth - 1))
    else if node.VarOr? then Expand(node.fallback, tokens, depth)
    else None
  }

  lemma Fewer(name: string, tokens: Tokens, stack: set<string>)
    requires name in tokens && name !in stack
    ensures |tokens.Keys - (stack + {name})| == |tokens.Keys - stack| - 1
  {
    assert tokens.Keys - (stack + {name}) == (tokens.Keys - stack) - {name};
  }

  lemma {:induction false} ResolvedIsExpanded(value: Value, tokens: Tokens, stack: set<string>)
    requires Resolve(value, tokens, stack).stuck == {}
    ensures Expand(value, tokens, |tokens.Keys - stack|) == Some(Resolve(value, tokens, stack).out)
    decreases tokens.Keys - stack, value
  {
    if value != [] {
      NodeResolvedIsExpanded(value[0], tokens, stack);
      ResolvedIsExpanded(value[1..], tokens, stack);
    }
  }

  lemma {:induction false} NodeResolvedIsExpanded(node: Node, tokens: Tokens, stack: set<string>)
    requires ResolveNode(node, tokens, stack).stuck == {}
    ensures ExpandNode(node, tokens, |tokens.Keys - stack|) == Some(ResolveNode(node, tokens, stack).out)
    decreases tokens.Keys - stack, node
  {
    if !node.Text? {
      assert node.name !in ResolveNode(node, tokens, stack).stuck;
      if node.name in tokens {
        assert node.name in tokens.Keys - stack;
        Fewer(node.name, tokens, stack);
        ResolvedIsExpanded(tokens[node.name], tokens, stack + {node.name});
      } else {
        ResolvedIsExpanded(node.fallback, tokens, stack);
      }
    }
  }

  /** No name of the stack expands within `depth`. */
  ghost predicate TooDeep(tokens: Tokens, stack: set<string>, depth: nat) {
    forall name, d: nat :: name in stack && name in tokens && d < depth ==> Expand(tokens[name], tokens, d).None?
  }

  lemma {:induction false} LeastDepth(value: Value, tokens: Tokens, depth: nat) returns (least: nat)
    requires Expand(value, tokens, depth).Some?
    ensures least <= depth && Expand(value, tokens, least).Some?
    ensures forall d: nat :: d < least ==> Expand(value, tokens, d).None?
  {
    if d: nat :| d < depth && Expand(value, tokens, d).Some? {
      least := LeastDepth(value, tokens, d);
    } else {
      least := depth;
    }
  }

  lemma {:induction false} ExpandableIsResolved(value: Value, tokens: Tokens, stack: set<string>, depth: nat)
    requires stack <= tokens.Keys && Expand(value, tokens, depth).Some? && TooDeep(tokens, stack, depth)
    ensures Resolve(value, tokens, stack).stuck == {}
    decreases tokens.Keys - stack, value
  {
    if value != [] {
      NodeExpandableIsResolved(value[0], tokens, stack, depth);
      ExpandableIsResolved(value[1..], tokens, stack, depth);
    }
  }

  lemma {:induction false} NodeExpandableIsResolved(node: Node, tokens: Tokens, stack: set<string>, depth: nat)
    requires stack <= tokens.Keys && ExpandNode(node, tokens, depth).Some? && TooDeep(tokens, stack, depth)
    ensures ResolveNode(node, tokens, stack).stuck == {}
    decreases tokens.Keys - stack, node
  {
    if !node.Text? {
      if node.name in tokens {
        var least := LeastDepth(tokens[node.name], tokens, depth - 1);
        assert node.name !in stack;
        assert node.name in tokens.Keys - stack;
        ExpandableIsResolved(tokens[node.name], tokens, stack + {node.name}, least);
      } else {
        ExpandableIsResolved(node.fallback, tokens, stack, depth);
      }
    }
  }

  /** Nothing is stuck exactly when plain substitution comes to an end, and then the result
      is what substitution gives. */
  lemma ResolutionIsSubstitution(value: Value, tokens: Tokens)
    ensures Resolve(value, tokens, {}).stuck == {} <==> exists depth: nat :: Expand(value, tokens, depth).Some?
    ensures Resolve(value, tokens, {}).stuck == {} ==>
              Expand(value, tokens, |tokens|) == Some(Resolve(value, tokens, {}).out)
  {
    if Resolve(value, tokens, {}).stuck == {} {
      assert tokens.Keys - {} == tokens.Keys;
      ResolvedIsExpanded(value, tokens, {});
    }
    forall depth: nat | Expand(value, tokens, depth).Some? ensures Resolve(value, tokens, {}).stuck == {} {
      ExpandableIsResolved(value, tokens, {}, depth);
    }
  }

  /* ----- The pass as it runs ----- */

  lemma ResolveJoins(value: Value, tokens: Tokens, stack: set<string>, i: nat)
    requires i < |value|
    ensures var before, node, after := Resolve(value[..i], tokens, stack), ResolveNode(value[i], tokens, stack), Resolve(value[..i + 1], tokens, stack);
            after.out == before.out + node.out && after.stuck == before.stuck + node.stuck
    decreases i
  {
    assert value[..i + 1][1..] == value[1..][..i];
    if i > 0 {
      ResolveJoins(value[1..], tokens, stack, i - 1);
      assert value[..i][1..] == value[1..][..i - 1];
    }
  }

  /** One left-to-right pass that adds to the set of stuck names as it goes. */
  method ResolvePass(value: Value, tokens: Tokens, stack: set<string>, stuck: set<string>) returns (out: Value, stuck': set<string>)
    ensures out == Resolve(value, tokens, stack).out && stuck' == stuck + Resolve(value, tokens, stack).stuck
    decreases tokens.Keys - stack, value
  {
    out, stuck' := [], stuck;
    for i := 0 to |value|
      invariant out == Resolve(value[..i], tokens, stack).out
      invariant stuck' == stuck + Resolve(value[..i], tokens, stack).stuck
    {
      ResolveJoins(value, tokens, stack, i);
      var node := value[i];
      var replacement := [node];
      if !node.Text? {
        if node.name in stack {
          stuck' := stuck' + {node.name};
        } else if node.name in tokens {
          assert node.name in tokens.Keys - stack;
          replacement, stuck' := ResolvePass(tokens[node.name], tokens, stack + {node.name}, stuck');
        } else if node.VarOr? {
          replacement, stuck' := ResolvePass(node.fallback, tokens, stack, stuck');
        } else {
          stuck' := stuck' + {node.name};
        }
      }
      out := out + replacement;
    }
    assert value[..|value|] == value;
  }
}
