/**
  The complexity control of the widget: the label shown above the four segment
  buttons, and which segments are lit for the current complexity.
 */
module ComplexityScale {
  import opened Wrappers
  import opened Pricing

  const ComplexityLabels: seq<string> := ["Minimal", "Standard", "Complex", "Enterprise"]

  /**
    `complexityLabels[complexity - 1]`: JavaScript yields `undefined` (here `None`)
    for an index outside the array.
   */
  function Label(complexity: int): (r: Option<string>)
    ensures r.Some? <==> MinComplexity <= complexity <= MaxComplexity
    ensures r.Some? ==> r.value in ComplexityLabels
  {
    var index := complexity - 1;
    if 0 <= index < |ComplexityLabels| then Some(ComplexityLabels[index]) else None
  }

  /** The four levels name Minimal, Standard, Complex and Enterprise, in that order, each once. */
  lemma LabelsInOrder()
    ensures Label(1) == Some("Minimal")
    ensures Label(2) == Some("Standard")
    ensures Label(3) == Some("Complex")
    ensures Label(4) == Some("Enterprise")
    ensures forall c1, c2 :: Label(c1).Some? && Label(c1) == Label(c2) ==> c1 == c2
  {
  }

  /** The buttons for levels 1..4, each lit when `level <= complexity`. */
  function Segments(complexity: int): (r: seq<bool>)
    ensures |r| == MaxComplexity
    ensures forall j, k :: 0 <= j <= k < |r| && r[k] ==> r[j]
    ensures r[0] <==> complexity >= MinComplexity
    ensures r[|r| - 1] <==> complexity >= MaxComplexity
  {
    seq(MaxComplexity, j => j + 1 <= complexity)
  }

  /** Number of lit segments. */
  function CountLit(segments: seq<bool>): nat {
    if segments == [] then 0
    else (if segments[0] then 1 else 0) + CountLit(segments[1..])
  }

  function Clamp(x: int, lo: int, hi: int): int
    requires lo <= hi
  {
    if x < lo then lo else if x > hi then hi else x
  }

  /** The first `lit` of `n` segments are lit and the rest are dark. */
  lemma {:induction false} PrefixCount(n: nat, lit: int)
    ensures CountLit(seq(n, j => j < lit)) == Clamp(lit, 0, n)
  {
    if n > 0 {
      var s := seq(n, j => j < lit);
      assert s[1..] == seq(n - 1, j => j < lit - 1);
      PrefixCount(n - 1, lit - 1);
    }
  }

  /**
    Exactly `complexity` segments are lit for every level the buttons can set
    (none below the range, all four above it).
   */
  lemma LitSegments(complexity: int)
    ensures CountLit(Segments(complexity)) == Clamp(complexity, 0, MaxComplexity)
    ensures MinComplexity <= complexity <= MaxComplexity ==> CountLit(Segments(complexity)) == complexity
  {
    assert Segments(complexity) == seq(MaxComplexity, j => j < complexity);
    PrefixCount(MaxComplexity, complexity);
  }
}
