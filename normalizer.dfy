/**
 * `convertStructuredData`: rebuilds a value tree so that every map, tagged
 * `StructuredData` or not, becomes a plain map, lists are rebuilt element by
 * element and everything else is returned as it is.
 */
module Normalizer {
  import opened Types

  function Normalize(d: Data): (r: Data)
    // no StructuredData tag is left anywhere in the result
    ensures Plain(r)
    // primitives are returned as they are
    ensures IsScalar(d) ==> r == d
    // maps of either kind become plain maps over the same keys
    ensures d.Map? || d.SData? <==> r.Map?
    ensures r.Map? ==> r.fields.Keys == d.fields.Keys
    // lists stay lists of the same length
    ensures d.List? <==> r.List?
    ensures r.List? ==> |r.items| == |d.items|
    decreases d
  {
    match d
    case SData(m) => Map(map k | k in m :: Normalize(m[k]))
    case Map(m) => Map(map k | k in m :: Normalize(m[k]))
    case List(xs) => List(seq(|xs|, i requires 0 <= i < |xs| => Normalize(xs[i])))
    case _ => d
  }

  /** Every entry of a normalized map is the normalized entry, under the same key. */
  lemma NormalizeEntries(d: Data, k: string)
    requires d.Map? || d.SData?
    requires k in d.fields
    ensures k in Normalize(d).fields && Normalize(d).fields[k] == Normalize(d.fields[k])
  {
  }

  /** Every element of a normalized list is the normalized element, in the same place. */
  lemma NormalizeElements(d: Data, i: nat)
    requires d.List? && i < |d.items|
    ensures i < |Normalize(d).items| && Normalize(d).items[i] == Normalize(d.items[i])
  {
  }

  /** A tree without StructuredData tags is left exactly as it is. */
  lemma {:induction false} NormalizeFixesPlain(d: Data)
    requires Plain(d)
    ensures Normalize(d) == d
    decreases d
  {
    match d
    case Map(m) =>
      forall k | k in m ensures Normalize(m[k]) == m[k] {
        NormalizeFixesPlain(m[k]);
      }
      assert Normalize(d).fields == m;
    case List(xs) =>
      forall i | 0 <= i < |xs| ensures Normalize(xs[i]) == xs[i] {
        NormalizeFixesPlain(xs[i]);
      }
      assert Normalize(d).items == xs;
    case _ =>
  }

  /** Normalizing twice is normalizing once. */
  lemma {:induction false} NormalizeIdempotent(d: Data)
    ensures Normalize(Normalize(d)) == Normalize(d)
  {
    NormalizeFixesPlain(Normalize(d));
  }

  /** The fixed points of normalization are exactly the plain trees. */
  lemma {:induction false} NormalizeFixedIffPlain(d: Data)
    ensures Normalize(d) == d <==> Plain(d)
  {
    if Plain(d) {
      NormalizeFixesPlain(d);
    }
  }
}
