/** The memory client's local computations: the fixed-size vector built from
    a text's digest, the key string a record's id is hashed from, and the
    success ratio of stored patterns. The digest and id hashes themselves
    (SHA-256, MD5) and the vector store are outside the model: the digest is
    an input and the id is the key before hashing. */
module Memory {
  import opened Common

  newtype byte = x: int | 0 <= x < 256

  const Dimension: nat := 512

  /** The value of the `k`-th byte pair: big-endian, scaled by 65535. */
  function PairValue(d: seq<byte>, k: nat): (v: real)
    requires 2 * k + 1 < |d|
    ensures 0.0 <= v <= 1.0
  {
    ((d[2 * k] as int) * 256 + d[2 * k + 1] as int) as real / 65535.0
  }

  /** The vector for a digest: one value per complete byte pair, zeros after
      them, exactly `Dimension` entries. */
  function EmbeddingOf(d: seq<byte>): (r: seq<real>)
    ensures |r| == Dimension
    ensures forall k :: 0 <= k < Dimension ==> 0.0 <= r[k] <= 1.0
    ensures forall k :: 0 <= k < Dimension && k >= |d| / 2 ==> r[k] == 0.0
  {
    seq(Dimension, k requires 0 <= k < Dimension => if 2 * k + 1 < |d| then PairValue(d, k) else 0.0)
  }

  /** Only the first `2 * Dimension` bytes of a digest matter: two digests
      of one length that agree on them give the same vector. */
  lemma EmbeddingDependsOnLeadingPairs(d1: seq<byte>, d2: seq<byte>)
    requires |d1| == |d2|
    requires forall j :: 0 <= j < |d1| && j < 2 * Dimension ==> d1[j] == d2[j]
    ensures EmbeddingOf(d1) == EmbeddingOf(d2)
  {
  }

  /** `_generate_embedding` on a digest: the pair loop, the zero padding
      and the truncation to `Dimension`. */
  method Embedding(d: seq<byte>) returns (vector: seq<real>)
    ensures vector == EmbeddingOf(d)
  {
    vector := [];
    var i := 0;
    while i < |d|
      invariant 0 <= i <= |d| + 1 && i % 2 == 0
      invariant |vector| == (if i / 2 < |d| / 2 then i / 2 else |d| / 2)
      invariant forall k :: 0 <= k < |vector| ==> 2 * k + 1 < |d| && vector[k] == PairValue(d, k)
      decreases |d| - i
    {
      if i + 1 < |d| {
        vector := vector + [((d[i] as int) * 256 + d[i + 1] as int) as real / 65535.0];
      }
      i := i + 2;
    }
    assert |vector| == |d| / 2;
    while |vector| < Dimension
      invariant |vector| >= |d| / 2
      invariant forall k :: 0 <= k < |vector| ==>
                  vector[k] == (if 2 * k + 1 < |d| then PairValue(d, k) else 0.0)
      decreases Dimension - |vector|
    {
      vector := vector + [0.0];
    }
    vector := vector[..Dimension];
  }

  /** The string a record's id is the MD5 hash of. `symbol` and `timestamp`
      are the record's fields, "" when absent. */
  function RecordKey(recordType: string, symbol: string, timestamp: string): (r: string)
    ensures recordType == "trade" ==> r == symbol + "_" + timestamp
    ensures recordType == "strategy_params" ==> r == "params_" + timestamp
    ensures recordType == "performance" ==> r == "perf_" + timestamp
    ensures recordType !in {"trade", "strategy_params", "performance"} ==> r == recordType + "_" + timestamp
  {
    if recordType == "trade" then symbol + "_" + timestamp
    else if recordType == "strategy_params" then "params_" + timestamp
    else if recordType == "performance" then "perf_" + timestamp
    else recordType + "_" + timestamp
  }

  /** The prefix a key is built on: the symbol for a trade, the type's tag
      otherwise. */
  function KeyPrefix(recordType: string, symbol: string): string
  {
    if recordType == "trade" then symbol
    else if recordType == "strategy_params" then "params"
    else if recordType == "performance" then "perf"
    else recordType
  }

  lemma KeyIsPrefixAndTimestamp(recordType: string, symbol: string, timestamp: string)
    ensures RecordKey(recordType, symbol, timestamp) == KeyPrefix(recordType, symbol) + "_" + timestamp
  {
  }

  /** Records with the same prefix get the same key exactly when their
      timestamps agree, so one type's records are told apart by time. */
  lemma KeyDistinguishesTimestamps(recordType: string, symbol: string, t1: string, t2: string)
    ensures RecordKey(recordType, symbol, t1) == RecordKey(recordType, symbol, t2) <==> t1 == t2
  {
    var p := KeyPrefix(recordType, symbol) + "_";
    KeyIsPrefixAndTimestamp(recordType, symbol, t1);
    KeyIsPrefixAndTimestamp(recordType, symbol, t2);
    if RecordKey(recordType, symbol, t1) == RecordKey(recordType, symbol, t2) {
      assert p + t1 == p + t2;
      assert t1 == (p + t1)[|p|..];
      assert t2 == (p + t2)[|p|..];
    }
  }

  /** The generic form does not keep types apart from the special ones: a
      record of type "params" gets the key of a parameter snapshot with the
      same timestamp. */
  lemma GenericKeyShadowsParams(timestamp: string)
    ensures RecordKey("params", "", timestamp) == RecordKey("strategy_params", "", timestamp)
  {
  }

  /** Strategy snapshots and performance summaries never share a key. */
  lemma ParamsAndPerformanceKeysDiffer(t1: string, t2: string)
    ensures RecordKey("strategy_params", "", t1) != RecordKey("performance", "", t2)
  {
    assert RecordKey("strategy_params", "", t1)[1] == 'a';
    assert RecordKey("performance", "", t2)[1] == 'e';
  }

  function Successes(matches: seq<bool>): (n: nat)
    ensures n <= |matches|
    ensures n == |matches| <==> forall k :: 0 <= k < |matches| ==> matches[k]
    ensures n == 0 <==> forall k :: 0 <= k < |matches| ==> !matches[k]
  {
    if matches == [] then 0 else (if matches[0] then 1 else 0) + Successes(matches[1..])
  }

  datatype Effectiveness = Effectiveness(effectiveness: real, sampleSize: nat, successful: Option<nat>)

  /** `analyze_pattern_effectiveness` on the matches' success flags. */
  function EffectivenessOf(matches: seq<bool>): (r: Effectiveness)
    ensures matches == [] ==> r == Effectiveness(0.0, 0, None)
    ensures matches != [] ==> r.sampleSize == |matches| && r.successful == Some(Successes(matches))
    ensures matches != [] ==> r.effectiveness == Ratio(Successes(matches), |matches|)
    ensures 0.0 <= r.effectiveness <= 1.0
    ensures matches != [] ==> (r.effectiveness == 1.0 <==> forall k :: 0 <= k < |matches| ==> matches[k])
    ensures r.effectiveness == 0.0 <==> forall k :: 0 <= k < |matches| ==> !matches[k]
  {
    if matches == [] then Effectiveness(0.0, 0, None)
    else
      var n := Successes(matches);
      Effectiveness(Ratio(n, |matches|), |matches|, Some(n))
  }

  /** `successful / total` for a non-empty sample. */
  function Ratio(n: nat, m: nat): (q: real)
    requires 0 < m && n <= m
    ensures q * m as real == n as real && 0.0 <= q <= 1.0
    ensures q == 1.0 <==> n == m
    ensures q == 0.0 <==> n == 0
  {
    n as real / m as real
  }
}
