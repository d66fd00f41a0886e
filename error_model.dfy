/**
 * The tip partial likelihoods of a taxon-specific sequence error model:
 * for each site pattern of a tip, four entries (one per nucleotide) giving
 * the probability of the observed base given each true base. An observed
 * base is undamaged with probability pUndamaged; otherwise it shows a
 * transition (A<->G, C<->T) or one of the two transversions of the true
 * base. Ambiguous observations are uninformative (all ones).
 */
module SequenceError {
  import opened Wrappers

  /** The nucleotide states, in the order A, C, G, T. */
  const A_STATE: int := 0
  const C_STATE: int := 1
  const G_STATE: int := 2
  const UT_STATE: int := 3

  /** A state the switch handles by its own case; every other state is an ambiguity code. */
  predicate Definite(state: int)
  {
    A_STATE <= state <= UT_STATE
  }

  /** The damage types the error model can be configured with. */
  datatype ErrorType =
    | AllSubstitutions       // damage changes a base to any of the three others
    | TransitionsOnly        // damage only ever produces the transition partner
    | OtherErrorType         // any other configured type, which this model rejects

  /** The three probabilities the blocks are built from. */
  datatype Damage = Damage(pUndamaged: real, pDamagedTS: real, pDamagedTV: real)

  /** No damage at all: what an excluded taxon uses. */
  const NoDamage := Damage(1.0, 0.0, 0.0)

  /**
   * The probability that a base of the tip is undamaged: one minus the
   * tip's base error rate, times `exp(-rate * age)` for the age-related
   * rate; a factor is left out when its parameter is absent.
   */
  function Undamaged(baseError: Option<real>, ageRate: Option<real>, age: real, exp: real -> real): real
  {
    var p := if baseError.Some? then 1.0 - baseError.value else 1.0;
    if ageRate.Some? then p * AgeFactor(ageRate.value, age, exp) else p
  }

  /** The probability `exp(-rate * age)` that a tip of the given age escaped age-related damage. */
  function AgeFactor(rate: real, age: real, exp: real -> real): real
  {
    exp(-rate * age)
  }

  /**
   * The damage probabilities of a tip whose indicator is on. An excluded tip
   * has no damage. Otherwise the damaged mass `1 - pUndamaged` goes in equal
   * parts to the three other bases, or all to the transition partner; any
   * other error type is an IllegalArgumentException.
   */
  function DamageProbabilities(excluded: bool, baseError: Option<real>, ageRate: Option<real>, age: real,
                               exp: real -> real, errorType: ErrorType): (r: Result<Damage, string>)
    ensures r.Err? <==> !excluded && errorType == OtherErrorType
    ensures excluded ==> r == Ok(NoDamage)
    ensures r.Ok? && !excluded ==> r.value.pUndamaged == Undamaged(baseError, ageRate, age, exp)
    ensures r.Ok? ==> r.value.pUndamaged + r.value.pDamagedTS + 2.0 * r.value.pDamagedTV == 1.0
    ensures r.Ok? && !excluded && errorType == AllSubstitutions ==> r.value.pDamagedTS == r.value.pDamagedTV
    ensures r.Ok? && !excluded && errorType == TransitionsOnly ==> r.value.pDamagedTV == 0.0
  {
    if excluded then Ok(NoDamage)
    else
      var pUndamaged := Undamaged(baseError, ageRate, age, exp);
      match errorType
      case AllSubstitutions =>
        var pDamagedTS := (1.0 - pUndamaged) / 3.0;
        Ok(Damage(pUndamaged, pDamagedTS, pDamagedTS))
      case TransitionsOnly =>
        Ok(Damage(pUndamaged, 1.0 - pUndamaged, 0.0))
      case OtherErrorType =>
        Err("only TRANSITIONS_ONLY and ALL_SUBSTITUTIONS are supported")
  }

  /** The sum of the four entries of a block. */
  function Sum4(b: seq<real>): real
    requires |b| == 4
  {
    b[0] + b[1] + b[2] + b[3]
  }

  /**
   * The block of an observed state when the indicator is on: the undamaged
   * probability at the state itself, the transition probability at its
   * transition partner, the transversion probability at the other two.
   */
  function DamageBlock(d: Damage, state: int): (r: seq<real>)
    ensures |r| == 4
    ensures Definite(state) ==>
              && r[state] == d.pUndamaged
              && r[(state + 2) % 4] == d.pDamagedTS
              && r[(state + 1) % 4] == d.pDamagedTV
              && r[(state + 3) % 4] == d.pDamagedTV
    ensures Definite(state) ==> Sum4(r) == d.pUndamaged + d.pDamagedTS + 2.0 * d.pDamagedTV
    ensures !Definite(state) ==> r == [1.0, 1.0, 1.0, 1.0]
  {
    if state == A_STATE then [d.pUndamaged, d.pDamagedTV, d.pDamagedTS, d.pDamagedTV]
    else if state == C_STATE then [d.pDamagedTV, d.pUndamaged, d.pDamagedTV, d.pDamagedTS]
    else if state == G_STATE then [d.pDamagedTS, d.pDamagedTV, d.pUndamaged, d.pDamagedTV]
    else if state == UT_STATE then [d.pDamagedTV, d.pDamagedTS, d.pDamagedTV, d.pUndamaged]
    else [1.0, 1.0, 1.0, 1.0]
  }

  /** The block of an observed state when the indicator is off: one-hot at a definite state. */
  function OneHotBlock(state: int): (r: seq<real>)
    ensures |r| == 4
    ensures Definite(state) ==> forall i :: 0 <= i < 4 ==> r[i] == if i == state then 1.0 else 0.0
    ensures !Definite(state) ==> r == [1.0, 1.0, 1.0, 1.0]
  {
    if state == A_STATE then [1.0, 0.0, 0.0, 0.0]
    else if state == C_STATE then [0.0, 1.0, 0.0, 0.0]
    else if state == G_STATE then [0.0, 0.0, 1.0, 0.0]
    else if state == UT_STATE then [0.0, 0.0, 0.0, 1.0]
    else [1.0, 1.0, 1.0, 1.0]
  }

  /** An excluded tip with its indicator on gets the same blocks as a tip whose indicator is off. */
  lemma NoDamageIsOneHot(state: int)
    ensures DamageBlock(NoDamage, state) == OneHotBlock(state)
  {
  }

  /** Every block of a definite state sums to 1, whichever branch and error type produced it. */
  lemma DefiniteBlocksSumToOne(excluded: bool, baseError: Option<real>, ageRate: Option<real>, age: real,
                               exp: real -> real, errorType: ErrorType, state: int)
    requires Definite(state)
    requires DamageProbabilities(excluded, baseError, ageRate, age, exp, errorType).Ok?
    ensures Sum4(DamageBlock(DamageProbabilities(excluded, baseError, ageRate, age, exp, errorType).value, state)) == 1.0
    ensures Sum4(OneHotBlock(state)) == 1.0
  {
  }

  /** Which switch the loop runs: the damage blocks of the given probabilities, or the one-hot blocks. */
  datatype Branch = Damaged(d: Damage) | IndicatorOff

  function Block(b: Branch, state: int): (r: seq<real>)
    ensures |r| == 4
  {
    match b
    case Damaged(d) => DamageBlock(d, state)
    case IndicatorOff => OneHotBlock(state)
  }

  /**
   * The entries written for a run of pattern states: the blocks of the
   * patterns one after the other, pattern j occupying entries 4j .. 4j+3.
   */
  function TipPartials(b: Branch, states: seq<int>): (r: seq<real>)
    ensures |r| == 4 * |states|
  {
    if states == [] then [] else TipPartials(b, states[..|states| - 1]) + Block(b, states[|states| - 1])
  }

  /** Entry i of pattern j's block is entry 4j + i of the tip's partials: each pattern owns its own four entries. */
  lemma {:induction false} TipPartialsLayout(b: Branch, states: seq<int>, j: nat, i: nat)
    requires j < |states| && i < 4
    ensures TipPartials(b, states)[4 * j + i] == Block(b, states[j])[i]
    decreases |states|
  {
    var last := |states| - 1;
    if j < last {
      TipPartialsLayout(b, states[..last], j, i);
      assert states[..last][j] == states[j];
    }
  }

  /** The sum of all entries. */
  function Total(s: seq<real>): real
  {
    if s == [] then 0.0 else Total(s[..|s| - 1]) + s[|s| - 1]
  }

  lemma {:induction false} TotalAppend(s: seq<real>, t: seq<real>)
    ensures Total(s + t) == Total(s) + Total(t)
    decreases |t|
  {
    if t == [] {
      assert s + t == s;
    } else {
      assert (s + t)[..|s + t| - 1] == s + t[..|t| - 1];
      assert (s + t)[|s + t| - 1] == t[|t| - 1];
      TotalAppend(s, t[..|t| - 1]);
    }
  }

  lemma Total4(b: seq<real>)
    requires |b| == 4
    ensures Total(b) == Sum4(b)
  {
    assert b[..1][..0] == [];
    assert Total(b[..1]) == b[0];
    assert b[..2][..1] == b[..1];
    assert Total(b[..2]) == b[0] + b[1];
    assert b[..3][..2] == b[..2];
    assert Total(b[..3]) == b[0] + b[1] + b[2];
    assert b[..4][..3] == b[..3];
    assert b[..4] == b;
  }

  /**
   * When every block of the run sums to 1 (definite states under a valid
   * damage split, or the one-hot branch), the entries of a tip sum to its
   * number of definite patterns.
   */
  lemma {:induction false} TipPartialsTotal(b: Branch, states: seq<int>)
    requires b.Damaged? ==> b.d.pUndamaged + b.d.pDamagedTS + 2.0 * b.d.pDamagedTV == 1.0
    requires forall j :: 0 <= j < |states| ==> Definite(states[j])
    ensures Total(TipPartials(b, states)) == |states| as real
    decreases |states|
  {
    if states != [] {
      var last := |states| - 1;
      TipPartialsTotal(b, states[..last]);
      TotalAppend(TipPartials(b, states[..last]), Block(b, states[last]));
      Total4(Block(b, states[last]));
    }
  }

  /**
   * The error model of one set of tips. Parameter values are those at the
   * time of the call; `tipHeights[i]` is the height of external node i.
   */
  class TaxonSpecificSequenceErrorModel {
    const errorType: ErrorType
    const baseErrorRate: Option<seq<real>>   // one base error rate per tip, when the parameter exists
    const ageRelatedErrorRate: Option<real>  // the parameter's value 0, when it exists
    const indicator: Option<seq<real>>       // one indicator per tip, when the parameter exists
    const states: seq<seq<int>>              // the observed state of each pattern at each tip
    const excluded: seq<bool>                // tips the error model does not apply to
    const patternCount: nat
    const tipHeights: seq<real>
    const exp: real -> real

    /** Every per-tip table has one entry per tip, and every tip has a state for every pattern. */
    predicate Valid()
    {
      && |excluded| == |states| && |tipHeights| == |states|
      && (baseErrorRate.Some? ==> |baseErrorRate.value| == |states|)
      && (indicator.Some? ==> |indicator.value| == |states|)
      && forall i :: 0 <= i < |states| ==> patternCount <= |states[i]|
    }

    constructor (errorType: ErrorType, baseErrorRate: Option<seq<real>>, ageRelatedErrorRate: Option<real>,
                 indicator: Option<seq<real>>, states: seq<seq<int>>, excluded: seq<bool>, patternCount: nat,
                 tipHeights: seq<real>, exp: real -> real)
      ensures this.errorType == errorType && this.baseErrorRate == baseErrorRate
      ensures this.ageRelatedErrorRate == ageRelatedErrorRate && this.indicator == indicator
      ensures this.states == states && this.excluded == excluded && this.patternCount == patternCount
      ensures this.tipHeights == tipHeights && this.exp == exp
    {
      this.errorType := errorType;
      this.baseErrorRate := baseErrorRate;
      this.ageRelatedErrorRate := ageRelatedErrorRate;
      this.indicator := indicator;
      this.states := states;
      this.excluded := excluded;
      this.patternCount := patternCount;
      this.tipHeights := tipHeights;
      this.exp := exp;
    }

    /** Whether tip `nodeIndex` takes the damage branch: no indicator, or a positive one. */
    predicate IndicatorOn(nodeIndex: nat)
      requires Valid() && nodeIndex < |states|
    {
      indicator.None? || indicator.value[nodeIndex] > 0.0
    }

    /** The branch tip `nodeIndex` takes, or the exception raised before any entry is written. */
    function TipBranch(nodeIndex: nat): (r: Result<Branch, string>)
      requires Valid() && nodeIndex < |states|
      ensures !IndicatorOn(nodeIndex) ==> r == Ok(IndicatorOff)
      ensures r.Err? <==> IndicatorOn(nodeIndex) && !excluded[nodeIndex] && errorType == OtherErrorType
      ensures r.Ok? ==> r.value.IndicatorOff? || r.value.d.pUndamaged + r.value.d.pDamagedTS + 2.0 * r.value.d.pDamagedTV == 1.0
    {
      if IndicatorOn(nodeIndex) then
        var baseError := if baseErrorRate.Some? then Some(baseErrorRate.value[nodeIndex]) else None;
        match DamageProbabilities(excluded[nodeIndex], baseError, ageRelatedErrorRate, tipHeights[nodeIndex],
                                  exp, errorType)
        case Ok(d) => Ok(Damaged(d))
        case Err(e) => Err(e)
      else Ok(IndicatorOff)
    }

    /**
     * `getTipPartials`: fill the first `4 * patternCount` entries of
     * `partials` with the blocks of tip `nodeIndex`'s patterns, leaving the
     * rest of the array alone; an unsupported error type raises before any
     * entry is written.
     */
    method GetTipPartials(nodeIndex: nat, partials: array<real>) returns (outcome: Outcome<string>)
      requires Valid() && nodeIndex < |states|
      requires 4 * patternCount <= partials.Length
      modifies partials
      ensures TipBranch(nodeIndex).Err? ==> outcome == Fail(TipBranch(nodeIndex).error) && unchanged(partials)
      ensures TipBranch(nodeIndex).Ok? ==>
                && outcome == Pass
                && partials[..4 * patternCount]
                   == TipPartials(TipBranch(nodeIndex).value, states[nodeIndex][..patternCount])
                && partials[4 * patternCount..] == old(partials[4 * patternCount..])
    {
      var tipStates := states[nodeIndex];
      if indicator.None? || indicator.value[nodeIndex] > 0.0 {
        var pUndamaged := 1.0;
        var pDamagedTS := 0.0;
        var pDamagedTV := 0.0;
        if !excluded[nodeIndex] {
          ghost var baseError := if baseErrorRate.Some? then Some(baseErrorRate.value[nodeIndex]) else None;
          if baseErrorRate.Some? {
            pUndamaged := pUndamaged - baseErrorRate.value[nodeIndex];
          }
          if ageRelatedErrorRate.Some? {
            var rate := ageRelatedErrorRate.value;
            var age := tipHeights[nodeIndex];
            pUndamaged := pUndamaged * AgeFactor(rate, age, exp);
          }
          assert pUndamaged == Undamaged(baseError, ageRelatedErrorRate, tipHeights[nodeIndex], exp);
          if errorType == AllSubstitutions {
            pDamagedTS := (1.0 - pUndamaged) / 3.0;
            pDamagedTV := pDamagedTS;
          } else if errorType == TransitionsOnly {
            pDamagedTS := 1.0 - pUndamaged;
            pDamagedTV := 0.0;
          } else {
            return Fail("only TRANSITIONS_ONLY and ALL_SUBSTITUTIONS are supported");
          }
        }
        assert TipBranch(nodeIndex) == Ok(Damaged(Damage(pUndamaged, pDamagedTS, pDamagedTV)));
        FillBlocks(partials, tipStates, Damaged(Damage(pUndamaged, pDamagedTS, pDamagedTV)));
      } else {
        FillBlocks(partials, tipStates, IndicatorOff);
      }
      outcome := Pass;
    }

    /**
     * The pattern loop of `getTipPartials`: for each pattern, the switch on
     * its state writes the four entries at the cursor k, then k advances by
     * the state count.
     */
    method FillBlocks(partials: array<real>, tipStates: seq<int>, b: Branch)
      requires patternCount <= |tipStates| && 4 * patternCount <= partials.Length
      modifies partials
      ensures partials[..4 * patternCount] == TipPartials(b, tipStates[..patternCount])
      ensures partials[4 * patternCount..] == old(partials[4 * patternCount..])
    {
      ghost var expected := TipPartials(b, tipStates[..patternCount]);
      var k := 0;
      for j := 0 to patternCount
        invariant k == 4 * j
        invariant forall p :: 0 <= p < k ==> partials[p] == expected[p]
        invariant forall p :: 4 * patternCount <= p < partials.Length ==> partials[p] == old(partials[p])
      {
        var block := Block(b, tipStates[j]);
        forall i | 0 <= i < 4
          ensures expected[k + i] == block[i]
        {
          TipPartialsLayout(b, tipStates[..patternCount], j, i);
          assert tipStates[..patternCount][j] == tipStates[j];
        }
        WriteBlock(partials, k, block);
        k := k + 4;  // the state count: four nucleotides
      }
      assert partials[..4 * patternCount] == expected;
    }

    /** One case of the switch: the four entries at the cursor k. */
    static method WriteBlock(partials: array<real>, k: nat, block: seq<real>)
      requires |block| == 4 && k + 4 <= partials.Length
      modifies partials
      ensures forall p :: 0 <= p < partials.Length ==>
                partials[p] == if k <= p < k + 4 then block[p - k] else old(partials[p])
    {
      partials[k] := block[0];
      partials[k + 1] := block[1];
      partials[k + 2] := block[2];
      partials[k + 3] := block[3];
    }
  }
}
