/**
 * The memo cache shared by every integrator: integrated probabilities keyed
 * by a pair of (state, time) observations and a mutation rate. Keys that
 * differ only by swapping the two observations are equal, so a cached value
 * answers both orders. The whole cache is emptied whenever a model the
 * integrator depends on changes or a proposal is rejected.
 */
module IntegratorCache {
  import opened Wrappers

  /** `ParameterValue`: the arguments of one `integratedProbability` call. */
  datatype ParameterValue = ParameterValue(iState: int, iTime: real, jState: int, jTime: real, mu: real)

  /** The same call with the two observations exchanged. */
  function Swapped(v: ParameterValue): ParameterValue
  {
    ParameterValue(v.jState, v.jTime, v.iState, v.iTime, v.mu)
  }

  /** `ParameterValue.equals`: the same rate and the same observations, in either order. */
  predicate KeyEquals(a: ParameterValue, b: ParameterValue)
  {
    && ((a.iState == b.iState && a.iTime == b.iTime && a.jState == b.jState && a.jTime == b.jTime)
        || (a.iState == b.jState && a.iTime == b.jTime && a.jState == b.iState && a.jTime == b.iTime))
    && a.mu == b.mu
  }

  /** Two keys are equal exactly when they are identical or one is the other swapped. */
  lemma KeyEqualsIffSameOrSwapped(a: ParameterValue, b: ParameterValue)
    ensures KeyEquals(a, b) <==> a == b || a == Swapped(b)
  {
  }

  /** `equals` is an equivalence, as a hash map requires. */
  lemma KeyEqualsIsEquivalence(a: ParameterValue, b: ParameterValue, c: ParameterValue)
    ensures KeyEquals(a, a)
    ensures KeyEquals(a, b) ==> KeyEquals(b, a)
    ensures KeyEquals(a, b) && KeyEquals(b, c) ==> KeyEquals(a, c)
  {
  }

  // ---------------------------------------------------------------------
  // hashCode
  // ---------------------------------------------------------------------

  /** Java's `(int)` of an `int` product: the value wrapped into 32-bit two's complement. */
  function WrapInt32(x: int): (r: int)
    ensures -0x8000_0000 <= r < 0x8000_0000
    ensures (r - x) % 0x1_0000_0000 == 0
  {
    var low := x % 0x1_0000_0000;
    if low < 0x8000_0000 then low else low - 0x1_0000_0000
  }

  /** A Java `int` or `long`, sign-extended to 64 bits. */
  function ToLong(x: int): bv64
    requires -0x8000_0000_0000_0000 <= x < 0x8000_0000_0000_0000
  {
    (x % 0x1_0000_0000_0000_0000) as bv64
  }

  /** The `(int)` cast of a `long`: its low 32 bits. */
  function LowInt(x: bv64): bv32
  {
    (x & 0xFFFF_FFFF) as bv32
  }

  /** The hash of one observation: `(int) (31 * state + bits ^ (bits >>> 32))`. */
  function ObservationHash(state: int, timeBits: bv64): bv32
  {
    LowInt((ToLong(WrapInt32(31 * state)) + timeBits) ^ (timeBits >> 32))
  }

  /**
   * `ParameterValue.hashCode`. `doubleToLongBits` is the parameter `bits`:
   * the bit pattern of a double is not part of this model.
   */
  function HashCode(bits: real -> bv64, v: ParameterValue): bv32
  {
    CombineHashes(ObservationHash(v.iState, bits(v.iTime)), ObservationHash(v.jState, bits(v.jTime)), bits(v.mu))
  }

  /** The last steps of `hashCode`: `result = i ^ j; result = 31 * result + (int) (mu ^ (mu >>> 32))`. */
  function CombineHashes(i: bv32, j: bv32, mu: bv64): bv32
  {
    var result := i ^ j;
    31 * result + LowInt(mu ^ (mu >> 32))
  }

  /** The two observations are combined by `^`, so swapping them does not change the hash. */
  lemma HashCodeSwapInvariant(bits: real -> bv64, v: ParameterValue)
    ensures HashCode(bits, Swapped(v)) == HashCode(bits, v)
  {
    var i := ObservationHash(v.iState, bits(v.iTime));
    var j := ObservationHash(v.jState, bits(v.jTime));
    assert CombineHashes(j, i, bits(v.mu)) == CombineHashes(i, j, bits(v.mu)) by {
      assert j ^ i == i ^ j;
    }
  }

  /** Equal keys have equal hashes, so a lookup finds a key stored in the other order. */
  lemma HashCodeAgreesWithEquals(bits: real -> bv64, a: ParameterValue, b: ParameterValue)
    requires KeyEquals(a, b)
    ensures HashCode(bits, a) == HashCode(bits, b)
  {
    if a != b {
      assert a == Swapped(b);
      HashCodeSwapInvariant(bits, b);
    }
  }

  // ---------------------------------------------------------------------
  // The cache as a value
  // ---------------------------------------------------------------------

  /** The probabilities map; each entry is stored under the key of the call that computed it. */
  type Cache = map<ParameterValue, real>

  /** No two stored keys are `equals` to each other (a hash map never holds both). */
  ghost predicate DistinctKeys(m: Cache)
  {
    forall k :: k in m && Swapped(k) in m ==> Swapped(k) == k
  }

  /** The stored key that `containsKey(key)` and `get(key)` find. */
  function Find(m: Cache, key: ParameterValue): (r: Option<ParameterValue>)
    ensures r.Some? ==> r.value in m && KeyEquals(r.value, key)
    ensures r.None? ==> forall k :: k in m ==> !KeyEquals(k, key)
  {
    if key in m then Some(key)
    else if Swapped(key) in m then Some(Swapped(key))
    else None
  }

  /** `containsKey(key)`. */
  predicate ContainsKey(m: Cache, key: ParameterValue)
  {
    Find(m, key).Some?
  }

  /** `get(key)`, for a key the map contains. */
  function Get(m: Cache, key: ParameterValue): real
    requires ContainsKey(m, key)
  {
    m[Find(m, key).value]
  }

  /** A lookup with the observations swapped finds the same entry. */
  lemma {:induction false} FindSwapped(m: Cache, key: ParameterValue)
    requires DistinctKeys(m)
    ensures Find(m, Swapped(key)) == Find(m, key)
  {
    assert Swapped(Swapped(key)) == key;
    if key in m && Swapped(key) in m {
      assert Swapped(key) == key;
    }
  }

  /** Between two invalidations, the cached value of a call and of its swapped call are the same. */
  lemma CachedValueSwapSymmetric(m: Cache, key: ParameterValue)
    requires DistinctKeys(m) && ContainsKey(m, key)
    ensures ContainsKey(m, Swapped(key)) && Get(m, Swapped(key)) == Get(m, key)
  {
    FindSwapped(m, key);
  }

  /** Adding an entry on a miss keeps the keys pairwise unequal. */
  lemma InsertKeepsKeysDistinct(m: Cache, key: ParameterValue, p: real)
    requires DistinctKeys(m) && !ContainsKey(m, key)
    ensures DistinctKeys(m[key := p])
  {
    assert Swapped(Swapped(key)) == key;
  }

  // ---------------------------------------------------------------------
  // The integrator's cache state
  // ---------------------------------------------------------------------

  class Integrator {
    var probabilities: Cache

    ghost predicate Valid()
      reads this
    {
      DistinctKeys(probabilities)
    }

    constructor ()
      ensures Valid() && probabilities == map[]
    {
      probabilities := map[];
    }

    /**
     * `integratedProbability`: the cached value for the call, computing it
     * with `calculate` (the subclass's `calculateIntegratedProbability`) and
     * storing it under this call's key when no equal key is cached.
     */
    method IntegratedProbability(iState: int, iTime: real, jState: int, jTime: real, mu: real,
                                 calculate: ParameterValue --> real) returns (p: real)
      requires Valid()
      requires calculate.requires(ParameterValue(iState, iTime, jState, jTime, mu))
      modifies this
      ensures Valid()
      ensures var key := ParameterValue(iState, iTime, jState, jTime, mu);
              && (old(ContainsKey(probabilities, key)) ==> probabilities == old(probabilities))
              && (!old(ContainsKey(probabilities, key)) ==> probabilities == old(probabilities)[key := calculate(key)])
              && ContainsKey(probabilities, key)
              && p == Get(probabilities, key)
    {
      var value := ParameterValue(iState, iTime, jState, jTime, mu);
      if !ContainsKey(probabilities, value) {
        Put(value, calculate(value));
      }
      p := Get(probabilities, value);
    }

    /** `probabilities.put(value, p)` for a call whose key, and whose swapped key, is not cached. */
    method Put(key: ParameterValue, p: real)
      requires Valid() && !ContainsKey(probabilities, key)
      modifies this
      ensures Valid() && probabilities == old(probabilities)[key := p]
    {
      InsertKeepsKeysDistinct(probabilities, key, p);
      probabilities := probabilities[key := p];
    }

    /** `handleModelChangedEvent`: a model the integral depends on changed; forget everything. */
    method HandleModelChangedEvent()
      modifies this
      ensures Valid() && probabilities == map[]
    {
      probabilities := map[];
    }

    /** `handleVariableChangedEvent`: a parameter the integral depends on changed; forget everything. */
    method HandleVariableChangedEvent()
      modifies this
      ensures Valid() && probabilities == map[]
    {
      probabilities := map[];
    }

    /** `restoreState`: the proposal was rejected and the parameters restored; forget everything. */
    method RestoreState()
      modifies this
      ensures Valid() && probabilities == map[]
    {
      probabilities := map[];
    }
  }

  /**
   * A call and the same call with the observations swapped return the same
   * value, and the second leaves the cache as the first left it, whatever
   * `calculate` computes: the symmetry comes from the cache, not from the
   * calculation.
   */
  method SwappedCallsAgree(c: Integrator, iState: int, iTime: real, jState: int, jTime: real, mu: real,
                           calculate: ParameterValue --> real) returns (p: real, q: real)
    requires c.Valid()
    requires calculate.requires(ParameterValue(iState, iTime, jState, jTime, mu))
    requires calculate.requires(ParameterValue(jState, jTime, iState, iTime, mu))
    modifies c
    ensures c.Valid()
    ensures q == p
    ensures var key := ParameterValue(iState, iTime, jState, jTime, mu);
            p == (if old(ContainsKey(c.probabilities, key)) then old(Get(c.probabilities, key)) else calculate(key))
  {
    p := c.IntegratedProbability(iState, iTime, jState, jTime, mu, calculate);
    ghost var afterFirst := c.probabilities;
    CachedValueSwapSymmetric(afterFirst, ParameterValue(iState, iTime, jState, jTime, mu));
    q := c.IntegratedProbability(jState, jTime, iState, iTime, mu, calculate);
    assert c.probabilities == afterFirst;
  }
}
