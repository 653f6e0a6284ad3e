/**
 * Facts about a run of states indexed by the number of lines read, proved
 * once on an abstract sequence so that the analysers' folds are unfolded
 * only one step at a time.
 */
module Chains {

  /** A binding no step changes is the same at the end of the run as at its start. */
  lemma {:induction false} KeptOn(f: nat -> map<string, string>, name: string, i: nat, j: nat)
    requires i <= j && name in f(i)
    requires forall m :: i <= m < j && name in f(m) ==> name in f(m + 1) && f(m + 1)[name] == f(m)[name]
    ensures name in f(j) && f(j)[name] == f(i)[name]
    decreases j - i
  {
    if i < j {
      KeptOn(f, name, i, j - 1);
    }
  }
}
