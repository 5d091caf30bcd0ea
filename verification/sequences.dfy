/** Sequences of groups and what they hold together. */
module Sequences {
  function Concat<T>(groups: seq<seq<T>>): seq<T> {
    if groups == [] then [] else Concat(groups[..|groups| - 1]) + groups[|groups| - 1]
  }

  lemma ConcatOneMore<T>(groups: seq<seq<T>>, group: seq<T>)
    ensures Concat(groups + [group]) == Concat(groups) + group
  {
    assert (groups + [group])[..|groups|] == groups;
  }

  lemma {:induction false} ConcatFromFront<T>(groups: seq<seq<T>>)
    requires groups != []
    ensures Concat(groups) == groups[0] + Concat(groups[1..])
  {
    if |groups| == 1 {
      assert Concat(groups[..0]) == [];
    } else {
      var last := |groups| - 1;
      ConcatFromFront(groups[..last]);
      assert groups[1..][..last - 1] == groups[..last][1..];
    }
  }
}
