/**
 The layer tree of a vector document, as far as the shortcut router sees it:
 every layer has an identifier and an ordered list of children. The document's
 `walk` visits a layer before its children and the children in sibling order;
 `Flatten` is that visiting order written as a sequence of identifiers.
 */
module Layers {

  datatype Layer = Layer(id: string, children: seq<Layer>)

  /** Identifiers of `l` and its descendants in pre-order (the order of `walk`). */
  function Flatten(l: Layer): seq<string>
    decreases l, 1
  {
    [l.id] + FlattenForest(l.children)
  }

  /** Pre-order identifiers of a list of sibling trees, left to right. */
  function FlattenForest(ls: seq<Layer>): seq<string>
    decreases ls, 0
  {
    if ls == [] then [] else Flatten(ls[0]) + FlattenForest(ls[1..])
  }

  /** `id` names `l` or one of its descendants (a reference definition independent of the walk order). */
  ghost predicate Contains(l: Layer, id: string)
    decreases l
  {
    l.id == id || exists c :: c in l.children && Contains(c, id)
  }

  /** Flattening a concatenation of forests concatenates their flattenings. */
  lemma {:induction false} FlattenForestAppend(a: seq<Layer>, b: seq<Layer>)
    ensures FlattenForest(a + b) == FlattenForest(a) + FlattenForest(b)
    decreases |a|
  {
    if a == [] {
      assert a + b == b;
    } else {
      assert (a + b)[0] == a[0];
      assert (a + b)[1..] == a[1..] + b;
      FlattenForestAppend(a[1..], b);
    }
  }

  /** The walk visits every layer of the tree and nothing else. */
  lemma {:induction false} FlattenVisitsExactlyTheTree(l: Layer, id: string)
    ensures id in Flatten(l) <==> Contains(l, id)
    decreases l, 1
  {
    FlattenForestVisitsExactly(l.children, id);
  }

  lemma {:induction false} FlattenForestVisitsExactly(ls: seq<Layer>, id: string)
    ensures id in FlattenForest(ls) <==> exists c :: c in ls && Contains(c, id)
    decreases ls, 0
  {
    if ls != [] {
      FlattenVisitsExactlyTheTree(ls[0], id);
      FlattenForestVisitsExactly(ls[1..], id);
      if id in FlattenForest(ls) && !Contains(ls[0], id) {
        var c :| c in ls[1..] && Contains(c, id);
        assert c in ls;
      }
      if exists c :: c in ls && Contains(c, id) {
        var c :| c in ls && Contains(c, id);
        if c != ls[0] {
          assert c in ls[1..];
        }
      }
    }
  }

  /** The walk starts at the root itself. */
  lemma FlattenStartsAtRoot(l: Layer)
    ensures |Flatten(l)| >= 1 && Flatten(l)[0] == l.id
  {
  }
}
