/** The index pattern both mesh builders use for one quad. */
module MeshIndexing {

  /** The six indices of one quad whose four vertices start at `o`: the
      triangles (o, o+1, o+2) and (o+2, o+3, o). */
  function QuadIndices(o: nat): (r: seq<nat>)
    ensures |r| == 6
    ensures forall k :: 0 <= k < 6 ==> o <= r[k] < o + 4
    ensures r[0] == r[5] == o && r[2] == r[3]
  {
    [o, o + 1, o + 2, o + 2, o + 3, o]
  }

  /** The indices of `q` consecutive quads whose vertices start at `o`. */
  function QuadIndicesFrom(o: nat, q: nat): seq<nat> {
    if q == 0 then [] else QuadIndicesFrom(o, q - 1) + QuadIndices(o + 4 * (q - 1))
  }

  lemma QuadIndicesFromStep(init: seq<nat>, o: nat, n: nat)
    ensures init + QuadIndicesFrom(o, n + 1) == (init + QuadIndicesFrom(o, n)) + QuadIndices(o + 4 * n)
  {
  }

  /** `q` quads from `o` take six indices each, and each index names one of
      the 4q vertices from `o` on: quad j uses vertices o + 4j to o + 4j + 3. */
  lemma {:induction false} QuadIndicesFromRange(o: nat, q: nat)
    ensures |QuadIndicesFrom(o, q)| == 6 * q
    ensures forall k :: 0 <= k < 6 * q ==> o + 4 * (k / 6) <= QuadIndicesFrom(o, q)[k] < o + 4 * (k / 6) + 4
  {
    if q > 0 {
      QuadIndicesFromRange(o, q - 1);
      var r := QuadIndicesFrom(o, q);
      forall k | 0 <= k < 6 * q
        ensures o + 4 * (k / 6) <= r[k] < o + 4 * (k / 6) + 4
      {
        if k < 6 * (q - 1) {
          assert r[k] == QuadIndicesFrom(o, q - 1)[k];
        } else {
          assert k / 6 == q - 1;
          assert r[k] == QuadIndices(o + 4 * (q - 1))[k - 6 * (q - 1)];
        }
      }
    }
  }
}
