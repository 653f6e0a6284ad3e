/**
 * What definitions cost in the encoded file, summed over sets of reference
 * names, and the dead-weight loop over stray (unused) definitions that both
 * analyser versions share.
 */
module Costs {
  import opened Text

  /** `1 + 1 + len(content.encode('utf-8'))`: the sigil, the separator and the content's bytes. */
  function DefinitionCost(content: string): (c: nat)
    ensures c >= 2
  {
    2 + Utf8Length(content)
  }

  /** Total definition cost of the names in `names`, each at its current content in `defined`. */
  ghost function CostOf(defined: map<string, string>, names: set<string>): nat
    requires names <= defined.Keys
    decreases names
  {
    if names == {} then 0
    else
      var n :| n in names;
      DefinitionCost(defined[n]) + CostOf(defined, names - {n})
  }

  /** The sum does not depend on the order names are taken in: any one name can be split off. */
  lemma {:induction false} CostOfRemove(defined: map<string, string>, names: set<string>, n: string)
    requires names <= defined.Keys && n in names
    ensures CostOf(defined, names) == DefinitionCost(defined[n]) + CostOf(defined, names - {n})
    decreases |names|
  {
    var m :| m in names && CostOf(defined, names) == DefinitionCost(defined[m]) + CostOf(defined, names - {m});
    if m != n {
      CostOfRemove(defined, names - {m}, n);
      CostOfRemove(defined, names - {n}, m);
      assert names - {m} - {n} == names - {n} - {m};
    }
  }

  /** The cost of two disjoint sets of names is the sum of their costs. */
  lemma {:induction false} CostOfUnion(defined: map<string, string>, a: set<string>, b: set<string>)
    requires a <= defined.Keys && b <= defined.Keys && a !! b
    ensures CostOf(defined, a + b) == CostOf(defined, a) + CostOf(defined, b)
    decreases |a|
  {
    if a != {} {
      var n :| n in a;
      CostOfRemove(defined, a, n);
      CostOfRemove(defined, a + b, n);
      assert (a + b) - {n} == (a - {n}) + b;
      CostOfUnion(defined, a - {n}, b);
    } else {
      assert a + b == b;
    }
  }

  /** Fewer names never cost more. */
  lemma CostOfSubset(defined: map<string, string>, a: set<string>, b: set<string>)
    requires a <= b <= defined.Keys
    ensures CostOf(defined, a) <= CostOf(defined, b)
  {
    CostOfUnion(defined, a, b - a);
    assert a + (b - a) == b;
  }

  /** Each name costs at least its sigil and separator. */
  lemma {:induction false} CostOfAtLeastTwoEach(defined: map<string, string>, names: set<string>)
    requires names <= defined.Keys
    ensures CostOf(defined, names) >= 2 * |names|
    decreases |names|
  {
    if names != {} {
      var n :| n in names;
      CostOfRemove(defined, names, n);
      CostOfAtLeastTwoEach(defined, names - {n});
    }
  }

  /**
   * The dead-weight estimate: the loop over the stray names adds
   * `1 + 1 + len(content)` for each, whatever order the set is walked in.
   */
  method DeadWeight(defined: map<string, string>, unused: set<string>) returns (size: nat)
    requires unused <= defined.Keys
    ensures size == CostOf(defined, unused)
    ensures size >= 2 * |unused|
  {
    CostOfAtLeastTwoEach(defined, unused);
    size := 0;
    var rest := unused;
    while rest != {}
      invariant rest <= unused
      invariant size + CostOf(defined, rest) == CostOf(defined, unused)
      decreases |rest|
    {
      var name :| name in rest;
      CostOfRemove(defined, rest, name);
      size := size + DefinitionCost(defined[name]);
      rest := rest - {name};
    }
  }

  /** The dead weight of the strays; the source computes it only when there are some, and there is none otherwise. */
  method StrayWeight(definedVars: map<string, string>, unusedVars: set<string>) returns (unusedSize: nat)
    requires unusedVars <= definedVars.Keys
    ensures unusedSize == CostOf(definedVars, unusedVars)
  {
    unusedSize := 0;
    if unusedVars != {} {
      unusedSize := DeadWeight(definedVars, unusedVars);
    }
  }
}
