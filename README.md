# SSGD core, modelled in Dafny

SSGD estimates a population's size through time from DNA sampled at
different times, using a pairwise composite likelihood. This project models
five parts of its core and proves properties of them:

- `paired_patterns.dfy` (module `PatternTable`) is the pairwise pattern table
  `PairedPatterns`. It keeps one row of weights per unordered pair of taxa,
  packed into a triangle, and one column per ordered pair of states. It
  supports lookups and additions in either taxon order, the total weight
  and the approximate base frequencies. The table is a class over a 2-D
  `array`, so its updates happen in place.
- `integrator.dfy` (module `IntegratorCache`) is the memo cache of the
  abstract `Integrator`. The key `ParameterValue` is equal to its swap, and
  its `hashCode` is proved to agree with that. The cache is a class whose
  map is filled on a miss and emptied on every model, variable or restore
  event.
- `hky_skyline.dfy` (module `HKYSkyline`) is `HKYSkylineIntegrator`:
  - the lazily computed HKY normalising constant `beta`;
  - the choice between the transition and transversion kernel;
  - the epoch walk of `integrateIntervals` over a piecewise-constant
    population, proved against a recursive specification of the integral;
  - the events that reset `beta` and the cache.
- `error_model.dfy` (module `SequenceError`) is
  `TaxonSpecificSequenceErrorModel.getTipPartials`. It computes the damage
  probabilities of a tip and writes four partials per pattern into the
  caller's array.
- `lambert_record.dfy` (module `LambertRecord`) and `lambert.dfy` (module
  `LambertFormat`) cover the Lambert-format reader:
  - a `Scanner` over one comma-delimited line;
  - the `SequenceRecord` constructor with its `nextInt` helper;
  - the parser's loop over blocks of one line per taxon, which adds four
    constant patterns and one column pattern per site to a `Patterns` sink.

`wrappers.dfy` holds `Option`, `Result` and `Outcome`.

Two facts about the input file, as the code reads it:

- A record line has seven comma-separated fields: gene name, taxon name,
  the A, T, G and C counts, and the sequence
  (`LambertFormatParser.java:130-136`).
- The reader adds per-site patterns to a BEAST `Patterns` object, not
  pairwise tallies (`LambertFormatParser.java:70-99`).

## Model

| member | source | states |
|---|---|---|
| PatternTable.TaxonIndex | src/org/compevol/ssgd/PairedPatterns.java:58-59 | the index is -1 exactly when the taxon is absent; otherwise it is the first position holding the taxon |
| PatternTable.PairCount | src/org/compevol/ssgd/PairedPatterns.java:53 | the table has Tri(n) = 0 + 1 + ... + (n-1) rows, one per unordered pair of n taxa |
| PatternTable.TriFormula | src/org/compevol/ssgd/PairedPatterns.java:53 | the constructor's `n * (n - 1) / 2` equals the number of unordered pairs |
| PatternTable.PairRow | src/org/compevol/ssgd/PairedPatterns.java:86 | the row `m + n(n-1)/2` of pair m < n lies in the band [Tri(n), Tri(n+1)) owned by n |
| PatternTable.PairRowInRange | src/org/compevol/ssgd/PairedPatterns.java:53-66 | every pair of listed taxa has a row inside the allocated table |
| PatternTable.PairRowInjective | src/org/compevol/ssgd/PairedPatterns.java:86 | two pairs share a row if and only if they are the same pair |
| PatternTable.StateColumn | src/org/compevol/ssgd/PairedPatterns.java:87 | the column `stateCount * i + j` is inside a row of stateCount² cells |
| PatternTable.StateColumnInjective | src/org/compevol/ssgd/PairedPatterns.java:87 | two state pairs share a column if and only if they are equal |
| PatternTable.DiagonalColumn | src/org/compevol/ssgd/PairedPatterns.java:106 | `(stateCount + 1) * k` is the column of the state pair (k, k) |
| PatternTable.Cell | src/org/compevol/ssgd/PairedPatterns.java:74-87 | an address inside the table, or an error exactly when a taxon is unknown or both taxa are the same |
| PatternTable.CellSymmetric | src/org/compevol/ssgd/PairedPatterns.java:79-84 | naming the taxa in either order, with their states, addresses the same cell |
| PatternTable.SameTaxonRejected | src/org/compevol/ssgd/PairedPatterns.java:79-80 | the same taxon twice raises the "two taxa must be different" error |
| PatternTable.CellInjective | src/org/compevol/ssgd/PairedPatterns.java:74-89 | two observations share a cell exactly when they are the same observation or its swap |
| PatternTable.ZeroGrid | src/org/compevol/ssgd/PairedPatterns.java:53 | a fresh table has the given number of rows, every cell 0 |
| PatternTable.Bump | src/org/compevol/ssgd/PairedPatterns.java:89 | `weights[x][y] += w` keeps the table's shape |
| PatternTable.DivideAll | src/org/compevol/ssgd/PairedPatterns.java:110-111 | each entry times the divisor gives back the original entry |
| PatternTable.Diagonal | src/org/compevol/ssgd/PairedPatterns.java:105-106 | one same-state weight of row 0 per state |
| PatternTable.ZeroGridTotal | src/org/compevol/ssgd/PairedPatterns.java:116-121 | a fresh table's total weight is 0 |
| PatternTable.TotalBump | src/org/compevol/ssgd/PairedPatterns.java:89 | adding w to one entry adds w to the row's sum |
| PatternTable.GridTotalBump | src/org/compevol/ssgd/PairedPatterns.java:116-121 | adding w to one cell adds w to the table's total weight |
| PatternTable.TotalDivided | src/org/compevol/ssgd/PairedPatterns.java:108-111 | dividing every entry by c divides the sum by c |
| PatternTable.NormalisedSumsToOne | src/org/compevol/ssgd/PairedPatterns.java:101-113 | approximate frequencies, when defined, sum to 1 |
| PatternTable.AddPatternEffect | src/org/compevol/ssgd/PairedPatterns.java:56-89 | after adding w, the weight of the added observation (in either order) rises by w and every other observation's weight is unchanged |
| PatternTable.DiagonalIsFirstPair | src/org/compevol/ssgd/PairedPatterns.java:101-106 | the frequency estimate reads the same-state weights of the first two taxa |
| PatternTable.CellAsWritten | src/org/compevol/ssgd/PairedPatterns.java:74-87 | the code's addressing, with -1 for an unknown taxon, fails only when both indices are equal |
| PatternTable.UnknownTaxonAliasesAnotherPair | src/org/compevol/ssgd/PairedPatterns.java:76-89 | as written, an unknown taxon paired with taxon n ≥ 2 addresses the cell of pair (n-2, n-1) |
| PatternTable.UnknownTaxaReportedAsSame | src/org/compevol/ssgd/PairedPatterns.java:76-80 | as written, two different unknown taxa raise the "must be different" error |
| PatternTable.CellAgreesWithCode | src/org/compevol/ssgd/PairedPatterns.java:74-87 | for listed taxa, the corrected addressing and the code's agree, failure and address |
| PatternTable.PairedPatterns.constructor | src/org/compevol/ssgd/PairedPatterns.java:49-54 | a table of Tri(n) rows by stateCount² columns, all zero |
| PatternTable.PairedPatterns.GetPatternWeight | src/org/compevol/ssgd/PairedPatterns.java:56-68 | the weight stored at the observation's cell, or the addressing error |
| PatternTable.PairedPatterns.AddPattern | src/org/compevol/ssgd/PairedPatterns.java:74-91 | on success the contents become the old contents with w added at the observation's cell; on failure nothing changes |
| PatternTable.PairedPatterns.AddUnitPattern | src/org/compevol/ssgd/PairedPatterns.java:70-72 | the same as AddPattern with weight 1 |
| PatternTable.PairedPatterns.GetTotalWeight | src/org/compevol/ssgd/PairedPatterns.java:116-121 | the sum of every cell of every row |
| PatternTable.PairedPatterns.GetApproximateFrequencies | src/org/compevol/ssgd/PairedPatterns.java:101-114 | the diagonal of row 0 divided by its sum; an error when there is no row 0 or the sum is 0 |
| PatternTable.AddPatternRaisesTotal | src/org/compevol/ssgd/PairedPatterns.java:89 | an addition succeeds exactly for two different listed taxa, and then raises the total weight by exactly w |
| IntegratorCache.KeyEqualsIffSameOrSwapped | src/org/compevol/ssgd/Integrator.java:63-72 | two keys are equal exactly when they are identical or one is the other swapped |
| IntegratorCache.KeyEqualsIsEquivalence | src/org/compevol/ssgd/Integrator.java:63-72 | `equals` is reflexive, symmetric and transitive |
| IntegratorCache.WrapInt32 | src/org/compevol/ssgd/Integrator.java:79-80 | the result is a 32-bit int congruent to the input modulo 2³² |
| IntegratorCache.HashCodeSwapInvariant | src/org/compevol/ssgd/Integrator.java:74-85 | swapping the two observations does not change the hash |
| IntegratorCache.HashCodeAgreesWithEquals | src/org/compevol/ssgd/Integrator.java:63-85 | equal keys have equal hashes |
| IntegratorCache.Find | src/org/compevol/ssgd/Integrator.java:91-93 | the key the map finds is stored and equal to the query; when none is found, no stored key equals it |
| IntegratorCache.FindSwapped | src/org/compevol/ssgd/Integrator.java:91-93 | a lookup with the observations swapped finds the same entry |
| IntegratorCache.CachedValueSwapSymmetric | src/org/compevol/ssgd/Integrator.java:89-94 | a cached call and its swap read the same value |
| IntegratorCache.InsertKeepsKeysDistinct | src/org/compevol/ssgd/Integrator.java:91-92 | storing on a miss keeps the stored keys pairwise unequal |
| IntegratorCache.Integrator.constructor | src/org/compevol/ssgd/Integrator.java:41-45 | the cache starts empty |
| IntegratorCache.Integrator.IntegratedProbability | src/org/compevol/ssgd/Integrator.java:89-94 | on a hit the map is unchanged; on a miss it gains the calculated value under this key; the result is the cached value |
| IntegratorCache.Integrator.Put | src/org/compevol/ssgd/Integrator.java:91-92 | the map gains exactly the value under the new key, and its keys stay pairwise unequal |
| IntegratorCache.Integrator.HandleModelChangedEvent | src/org/compevol/ssgd/Integrator.java:98-102 | the cache is emptied |
| IntegratorCache.Integrator.HandleVariableChangedEvent | src/org/compevol/ssgd/Integrator.java:104-108 | the cache is emptied |
| IntegratorCache.Integrator.RestoreState | src/org/compevol/ssgd/Integrator.java:110-113 | the cache is emptied |
| IntegratorCache.SwappedCallsAgree | src/org/compevol/ssgd/Integrator.java:89-94 | a call and its swapped call return the same value, the cached one or else the first call's calculation |
| HKYSkyline.RateBracket | src/org/compevol/ssgd/HKYSkylineIntegrator.java:70-72 | the bracket of beta is positive for a positive model |
| HKYSkyline.Beta | src/org/compevol/ssgd/HKYSkylineIntegrator.java:72 | beta is positive |
| HKYSkyline.BetaNormalisesRate | src/org/compevol/ssgd/HKYSkylineIntegrator.java:72 | scaled by beta, the expected HKY substitution rate at equilibrium is 1 |
| HKYSkyline.OutRates | src/org/compevol/ssgd/HKYSkylineIntegrator.java:72 | each state's leaving rate is the other frequencies, its transition partner's times kappa |
| HKYSkyline.CompositeLikelihoodBetaAgrees | src/org/compevol/ssgd/PairedCompositeLikelihood.java:107-114 | the composite likelihood's beta equals the integrator's |
| HKYSkyline.JavaRem | src/org/compevol/ssgd/HKYSkylineIntegrator.java:85 | Java's `%`: Euclidean for a non-negative dividend, non-positive for a negative one |
| HKYSkyline.SelectKernel | src/org/compevol/ssgd/HKYSkylineIntegrator.java:84-99 | the transition kernel is chosen exactly for same-parity states, with the states' own indices |
| HKYSkyline.TransitionPairs | src/org/compevol/ssgd/HKYSkylineIntegrator.java:85 | for nucleotides, the transition branch covers equal states and the A/G and C/T pairs only |
| HKYSkyline.TransitionIndices | src/org/compevol/ssgd/HKYSkylineIntegrator.java:144-145 | `ihat` is a different state of the same kind, its own partner's partner; `pm` is -1 exactly for equal states |
| HKYSkyline.TransitionPartnerIsOtherOfPair | src/org/compevol/ssgd/HKYSkylineIntegrator.java:144 | `(i + 2) % 4` maps A↔G and C↔T |
| HKYSkyline.Tau | src/org/compevol/ssgd/HKYSkylineIntegrator.java:82 | tau is non-negative and is one of the two time differences |
| HKYSkyline.Start | src/org/compevol/ssgd/HKYSkylineIntegrator.java:101 | start is the later of the two times |
| HKYSkyline.TauStartSwapInvariant | src/org/compevol/ssgd/HKYSkylineIntegrator.java:82-101 | swapping the times changes neither tau nor start, and tau is start minus the earlier time |
| HKYSkyline.EpochDuration | src/org/compevol/ssgd/HKYSkylineIntegrator.java:111-124 | an epoch's duration is infinite exactly for the last epoch |
| HKYSkyline.BoundaryMonotone | src/org/compevol/ssgd/HKYSkylineIntegrator.java:111 | with no negative durations, epochs begin in order |
| HKYSkyline.StartEpochFrom | src/org/compevol/ssgd/HKYSkylineIntegrator.java:111 | the search from epoch e stops at an existing epoch at or after e |
| HKYSkyline.StartEpoch | src/org/compevol/ssgd/HKYSkylineIntegrator.java:111 | the search stops at an existing epoch |
| HKYSkyline.StartEpochFromFinds | src/org/compevol/ssgd/HKYSkylineIntegrator.java:111 | a search started at or before the epoch holding start finds that epoch |
| HKYSkyline.StartEpochCharacterised | src/org/compevol/ssgd/HKYSkylineIntegrator.java:111 | the epoch holding start is unique and is the one the search finds |
| HKYSkyline.StartEpochContains | src/org/compevol/ssgd/HKYSkylineIntegrator.java:111 | the epoch the search finds holds start |
| HKYSkyline.StartEpochFromContains | src/org/compevol/ssgd/HKYSkylineIntegrator.java:111 | a search from below start finds the epoch holding it |
| HKYSkyline.WalkPreviousIsLower | src/org/compevol/ssgd/HKYSkylineIntegrator.java:112-123 | `previous` is start in the first epoch and the epoch's beginning afterwards |
| HKYSkyline.WalkWeightIsProbability | src/org/compevol/ssgd/HKYSkylineIntegrator.java:114-121 | the weight g stays in (0, 1] through the walk |
| HKYSkyline.StepKeepsProbability | src/org/compevol/ssgd/HKYSkylineIntegrator.java:121 | one epoch's survival factor keeps g in (0, 1] |
| HKYSkyline.StartInLastEpoch | src/org/compevol/ssgd/HKYSkylineIntegrator.java:111-129 | when start lies in the last epoch, only the closing term remains, evaluated at start |
| HKYSkyline.LowerEndsAscend | src/org/compevol/ssgd/HKYSkylineIntegrator.java:112-129 | the lower ends never decrease, and the closing term is evaluated at max(start, start of the last epoch) |
| HKYSkyline.HKYSkylineIntegrator.constructor | src/org/compevol/ssgd/HKYSkylineIntegrator.java:55-62 | the models are stored, beta is unknown and the cache is empty |
| HKYSkyline.HKYSkylineIntegrator.CalculateBeta | src/org/compevol/ssgd/HKYSkylineIntegrator.java:64-74 | stores the current kappa and Beta(kappa, frequencies), and marks beta known |
| HKYSkyline.HKYSkylineIntegrator.IntegrateIntervals | src/org/compevol/ssgd/HKYSkylineIntegrator.java:104-136 | the result is the specified integral from start over the epochs |
| HKYSkyline.HKYSkylineIntegrator.CalculateIntegratedProbability | src/org/compevol/ssgd/HKYSkylineIntegrator.java:77-102 | for a later time that is not negative, beta is made known, and the result is the calculation for the key under the current models |
| HKYSkyline.HKYSkylineIntegrator.IntegratedProbability | src/org/compevol/ssgd/Integrator.java:89-94 | a hit returns the cached value and changes neither the cache nor beta; a miss makes beta known (through `calculateIntegratedProbability`, `HKYSkylineIntegrator.java:79-80`), adds exactly the calculation of the key and returns it; either way the result is the calculation of the key or of its swap |
| HKYSkyline.HKYSkylineIntegrator.HandleModelChangedEvent | src/org/compevol/ssgd/HKYSkylineIntegrator.java:167-171 | the cache is emptied and beta forgotten |
| HKYSkyline.HKYSkylineIntegrator.HandleVariableChangedEvent | src/org/compevol/ssgd/HKYSkylineIntegrator.java:173-177 | the cache is emptied and beta forgotten |
| HKYSkyline.HKYSkylineIntegrator.StoreState | src/org/compevol/ssgd/HKYSkylineIntegrator.java:179-182 | nothing changes |
| HKYSkyline.HKYSkylineIntegrator.RestoreState | src/org/compevol/ssgd/HKYSkylineIntegrator.java:184-188 | the cache is emptied and beta forgotten |
| HKYSkyline.HKYSkylineIntegrator.AcceptState | src/org/compevol/ssgd/HKYSkylineIntegrator.java:190-193 | nothing changes |
| HKYSkyline.HKYSkylineIntegrator.SetSubstitutionModel | src/org/compevol/ssgd/HKYSkylineIntegrator.java:167-171 | after a kappa or frequency change and its event, the cache is empty and beta unknown |
| HKYSkyline.HKYSkylineIntegrator.SetDemography | src/org/compevol/ssgd/HKYSkylineIntegrator.java:167-171 | after a population change and its event, the cache is empty and beta unknown |
| HKYSkyline.SumBoundedEpochs | src/org/compevol/ssgd/HKYSkylineIntegrator.java:112-126 | the loop variables end as the specified walk through the bounded epochs |
| HKYSkyline.FindStartEpoch | src/org/compevol/ssgd/HKYSkylineIntegrator.java:109-111 | the search loop stops one past the epoch holding start, with `current` the end of that epoch |
| SequenceError.DamageProbabilities | src/org/compevol/ssgd/TaxonSpecificSequenceErrorModel.java:91-118 | no damage for an excluded tip; otherwise the undamaged probability, with the rest split by error type; the three always total 1; an error for an unsupported type |
| SequenceError.DamageBlock | src/org/compevol/ssgd/TaxonSpecificSequenceErrorModel.java:120-152 | undamaged at the state, transition damage at its partner, transversion damage elsewhere; all 1 for an ambiguity |
| SequenceError.OneHotBlock | src/org/compevol/ssgd/TaxonSpecificSequenceErrorModel.java:157-189 | one-hot at a definite state, all 1 for an ambiguity |
| SequenceError.NoDamageIsOneHot | src/org/compevol/ssgd/TaxonSpecificSequenceErrorModel.java:91-95 | an excluded tip gets the same blocks as a tip whose indicator is off |
| SequenceError.DefiniteBlocksSumToOne | src/org/compevol/ssgd/TaxonSpecificSequenceErrorModel.java:107-189 | every block of a definite state sums to 1 in both branches |
| SequenceError.Block | src/org/compevol/ssgd/TaxonSpecificSequenceErrorModel.java:121-153 | each pattern's block has four entries |
| SequenceError.TipPartials | src/org/compevol/ssgd/TaxonSpecificSequenceErrorModel.java:120-154 | four entries per pattern |
| SequenceError.TipPartialsLayout | src/org/compevol/ssgd/TaxonSpecificSequenceErrorModel.java:120-154 | entry 4j + i of the partials is entry i of pattern j's block |
| SequenceError.TipPartialsTotal | src/org/compevol/ssgd/TaxonSpecificSequenceErrorModel.java:120-192 | for definite states under a valid split, the partials sum to the number of patterns |
| SequenceError.TaxonSpecificSequenceErrorModel.constructor | src/org/compevol/ssgd/TaxonSpecificSequenceErrorModel.java:54-83 | the error type and the optional parameters are stored |
| SequenceError.TaxonSpecificSequenceErrorModel.TipBranch | src/org/compevol/ssgd/TaxonSpecificSequenceErrorModel.java:89-118 | the indicator-off branch when the indicator is not positive; an error exactly for an unsupported type on a damaged tip; a damage split totalling 1 otherwise |
| SequenceError.TaxonSpecificSequenceErrorModel.GetTipPartials | src/org/compevol/ssgd/TaxonSpecificSequenceErrorModel.java:85-195 | on error the array is untouched; otherwise the first 4·patternCount entries are the tip's partials and the rest are unchanged |
| SequenceError.TaxonSpecificSequenceErrorModel.FillBlocks | src/org/compevol/ssgd/TaxonSpecificSequenceErrorModel.java:120-154 | the loop writes the partials of the pattern states and nothing past them |
| SequenceError.TaxonSpecificSequenceErrorModel.WriteBlock | src/org/compevol/ssgd/TaxonSpecificSequenceErrorModel.java:123-127 | one case writes its four entries at the cursor and nothing else |
| LambertRecord.SkipDelimiter | src/org/compevol/ssgd/LambertFormatParser.java:129-130 | skipping the delimiter never lengthens the input |
| LambertRecord.TokenEnd | src/org/compevol/ssgd/LambertFormatParser.java:129-131 | a token runs up to the first comma or the end of the input |
| LambertRecord.TokensOfJoin | src/org/compevol/ssgd/LambertFormatParser.java:127-137 | comma-free fields joined by commas are read back as those fields |
| LambertRecord.TokensAfterComma | src/org/compevol/ssgd/LambertFormatParser.java:127-137 | the same holds after a leading delimiter |
| LambertRecord.ParseInt | src/org/compevol/ssgd/LambertFormatParser.java:114 | an accepted token is a non-empty, comma-free text of an int-range value |
| LambertRecord.ParseIntText | src/org/compevol/ssgd/LambertFormatParser.java:114 | every int written in decimal reads back as itself |
| LambertRecord.RecordOf | src/org/compevol/ssgd/LambertFormatParser.java:127-137 | a line fails exactly when it has fewer than seven tokens, and then with NoSuchElement |
| LambertRecord.RecordRoundTrip | src/org/compevol/ssgd/LambertFormatParser.java:127-137 | a written record reads back as itself: gene, taxon, A, T, G, C, sequence |
| LambertRecord.FirstFieldToken | src/org/compevol/ssgd/LambertFormatParser.java:128-131 | on a joined line the scanner's first token is the first field, followed by the rest of the line |
| LambertRecord.NextOfJoin | src/org/compevol/ssgd/LambertFormatParser.java:130 | `next` reads the first field |
| LambertRecord.NextIntOfJoin | src/org/compevol/ssgd/LambertFormatParser.java:112-118 | `nextInt` as written reads an integer field, and on a mismatch returns 0 and leaves the field unread |
| LambertRecord.BadCountTokens | src/org/compevol/ssgd/LambertFormatParser.java:127-137 | the line `g1,t1,x,5,6,7,ACGT` has seven tokens |
| LambertRecord.BadCountAsWritten | src/org/compevol/ssgd/LambertFormatParser.java:112-137 | as written, that line gives counts 0,0,0,0 and sequence `x` |
| LambertRecord.BadCountCorrected | src/org/compevol/ssgd/LambertFormatParser.java:127-137 | read field by field, only its A count is 0 and the sequence is `ACGT` |
| LambertRecord.WellFormedLineAsWritten | src/org/compevol/ssgd/LambertFormatParser.java:112-137 | on a well-formed line the code as written reads the record correctly |
| LambertRecord.Scanner.constructor | src/org/compevol/ssgd/LambertFormatParser.java:128-129 | the scanner starts at the beginning of the line |
| LambertRecord.Scanner.Next | src/org/compevol/ssgd/LambertFormatParser.java:130-131 | returns the first remaining token and drops it, or NoSuchElement when no token remains |
| LambertRecord.Scanner.NextInt | src/org/compevol/ssgd/LambertFormatParser.java:112-118 | returns the first remaining token's count (0 for a non-integer) and drops the token |
| LambertRecord.Scanner.NextIntAsWritten | src/org/compevol/ssgd/LambertFormatParser.java:112-118 | follows `nextInt` as written: a mismatching token stays unread |
| LambertRecord.ReadRecord | src/org/compevol/ssgd/LambertFormatParser.java:127-137 | the constructor's result is the record the line's tokens specify |
| LambertRecord.ReadNames | src/org/compevol/ssgd/LambertFormatParser.java:130-131 | the first two tokens, or NoSuchElement when there are fewer |
| LambertRecord.ReadCounts | src/org/compevol/ssgd/LambertFormatParser.java:132-135 | the counts of the next four tokens, or NoSuchElement when there are fewer |
| LambertRecord.ReadRecordAsWritten | src/org/compevol/ssgd/LambertFormatParser.java:127-137 | the constructor as written matches its specification |
| LambertFormat.Rows | src/org/compevol/ssgd/LambertFormatParser.java:76-80 | one row per line of the file |
| LambertFormat.RowAt | src/org/compevol/ssgd/LambertFormatParser.java:80 | row k is the record, or the error, of line k |
| LambertFormat.RowsAsWritten | src/org/compevol/ssgd/LambertFormatParser.java:80 | one row per line, each read by the constructor as written |
| LambertFormat.WrittenFileParsesAlike | src/org/compevol/ssgd/LambertFormatParser.java:76-101 | on a file of written records the code's reader and the field-by-field reader give the same rows and the same patterns |
| LambertFormat.BadCountFileParses | src/org/compevol/ssgd/LambertFormatParser.java:76-101 | on the one-line file `g1,t1,x,5,6,7,ACGT` the code adds 5 patterns, the A and C constants weighted 0; read field by field, it adds 8, the C and G constants weighted 7 and 6 |
| LambertFormat.SingleRecordFile | src/org/compevol/ssgd/LambertFormatParser.java:76-99 | a one-line file for its single taxon gives the four constants weighted by its counts, then one column per site |
| LambertFormat.ReadRecords | src/org/compevol/ssgd/LambertFormatParser.java:78-81 | a block read in full has `count` records taken from the available lines |
| LambertFormat.ReadRecordsOk | src/org/compevol/ssgd/LambertFormatParser.java:78-81 | a block is read exactly when its lines exist and are all well-formed |
| LambertFormat.ReadRecordsValues | src/org/compevol/ssgd/LambertFormatParser.java:78-81 | record n of a block is the record of line n |
| LambertFormat.ReadRecordsAll | src/org/compevol/ssgd/LambertFormatParser.java:78-81 | lines holding given records read as exactly those records |
| LambertFormat.ReadRecordsFirstError | src/org/compevol/ssgd/LambertFormatParser.java:78-81 | reading stops at the first missing or malformed line and reports it |
| LambertFormat.Fill | src/org/compevol/ssgd/LambertFormatParser.java:60-67 | `Arrays.fill` gives n slots holding the value |
| LambertFormat.FillColumn | src/org/compevol/ssgd/LambertFormatParser.java:92-96 | a built column has a slot per taxon; it fails only for a sequence that is too short or a taxon name not in the list |
| LambertFormat.LastWriter | src/org/compevol/ssgd/LambertFormatParser.java:92-96 | the last record naming the slot's taxon, or -1 when none does |
| LambertFormat.FillColumnOk | src/org/compevol/ssgd/LambertFormatParser.java:92-95 | the inner loop succeeds exactly when every record names a listed taxon and reaches the site |
| LambertFormat.FillColumnSlot | src/org/compevol/ssgd/LambertFormatParser.java:92-96 | each slot holds the site's state in the last record naming that taxon, else its earlier value |
| LambertFormat.ColumnSlots | src/org/compevol/ssgd/LambertFormatParser.java:91-96 | a column slot is the last writer's state at the site, or 0 when no record names that taxon |
| LambertFormat.ColumnOk | src/org/compevol/ssgd/LambertFormatParser.java:90-95 | a site's column is built exactly when every record is readable at that site |
| LambertFormat.ColumnsLayout | src/org/compevol/ssgd/LambertFormatParser.java:90-99 | one weight-1 pattern per remaining site, holding that site's column |
| LambertFormat.ColumnsOk | src/org/compevol/ssgd/LambertFormatParser.java:90-99 | the columns are built exactly when every remaining site's column is |
| LambertFormat.BlockLayout | src/org/compevol/ssgd/LambertFormatParser.java:85-99 | all-A, all-C, all-G and all-T patterns weighted by the first record's counts, then one column per site of its sequence |
| LambertFormat.BlockOk | src/org/compevol/ssgd/LambertFormatParser.java:85-99 | a block succeeds exactly when every record is readable at every site of the first sequence |
| LambertFormat.FillColumnIgnoresCounts | src/org/compevol/ssgd/LambertFormatParser.java:92-96 | columns depend only on the records' taxon names and sequences |
| LambertFormat.ColumnsIgnoreCounts | src/org/compevol/ssgd/LambertFormatParser.java:90-99 | the same for all the columns of a block |
| LambertFormat.BlockIgnoresOtherCounts | src/org/compevol/ssgd/LambertFormatParser.java:85-88 | only the first record's counts weigh anything |
| LambertFormat.ParseConsumesWholeBlocks | src/org/compevol/ssgd/LambertFormatParser.java:76-81 | a file that parses has a multiple of the taxon count lines, and none when there are no taxa |
| LambertFormat.Patterns.constructor | src/org/compevol/ssgd/LambertFormatParser.java:70 | the sink starts empty |
| LambertFormat.Patterns.AddPattern | src/org/compevol/ssgd/LambertFormatParser.java:85-98 | the pattern is appended |
| LambertFormat.ReadRow | src/org/compevol/ssgd/LambertFormatParser.java:80 | the record, or the error, of line k |
| LambertFormat.ReadBlock | src/org/compevol/ssgd/LambertFormatParser.java:78-81 | the record array equals the specified block read from the current line |
| LambertFormat.BuildColumn | src/org/compevol/ssgd/LambertFormatParser.java:91-97 | the pattern array equals the specified column, or the same error |
| LambertFormat.AddColumns | src/org/compevol/ssgd/LambertFormatParser.java:90-99 | appends exactly the block's column patterns, or fails with their error |
| LambertFormat.AddBlock | src/org/compevol/ssgd/LambertFormatParser.java:85-99 | appends exactly the block's patterns, or fails with its error |
| LambertFormat.ParseLines | src/org/compevol/ssgd/LambertFormatParser.java:76-101 | the sink's patterns are those the whole file specifies, or the first error |

## Left out

- Floating point is modelled as exact `real` arithmetic. NaN, infinities and rounding are not modelled.
- HKYSkyline.HKYSkylineIntegrator.IntegrateIntervals: the NaN-to-0.0 fallback (`HKYSkylineIntegrator.java:131-132`) is not modelled, because reals have no NaN.
- IntegratorCache.HashCode: `Double.doubleToLongBits` is a parameter, because the IEEE bit layout is not modelled.
- `Math.exp` and the closed forms `transitionH` and `transversionH` (`HKYSkylineIntegrator.java:142-165`) are function parameters. The model fixes which closed form is called, and with which indices and arguments; the closed-form formulas are not modelled.
- `PiecewiseConstantPopulation` is not part of this model. The demography is a sequence of sizes and finite durations, and the last epoch lasts forever.
- `getFrequency` is only modelled for the four nucleotide states. The kernel lemmas assume states 0..3.
- PatternTable.PairedPatterns.GetPatternWeight, PatternTable.PairedPatterns.AddPattern, PatternTable.PairedPatterns.AddUnitPattern: state indices outside 0..stateCount-1 are not modelled. The only caller passes nucleotide states 0..3. Java accepts any `int`, and an out-of-range index would land in another cell of the row or outside it.
- Java `int` overflow is not modelled in the index arithmetic of `PairedPatterns`. It is modelled in `hashCode` (WrapInt32) and in the `int` range of `nextInt`.
- PatternTable.PairedPatterns.GetApproximateFrequencies: a zero diagonal sum is an error here, where Java would produce NaN entries.
- `getDataType`, `getTaxa`, `getId` and `setId` are plain getters and setters and are not modelled.
- `stateCount` in the error model is fixed at 4 (nucleotides).
- Model parameters (kappa, frequencies, error rates, indicator, tip heights) are read as snapshot values at the time of the call.
- The listener machinery (`addModel`, `addVariable`, `fireModelChanged`) is out of scope. Each event is a method that performs the event's effect on the cache and beta.
- `Scanner` is modelled for the delimiter `,` only. Locale-specific digits, group separators and radix are not modelled. A count is an optional sign and decimal digits within the `int` range.
- Reading the file is out of scope: the `File`, `FileNotFoundException`, `hasNextLine` and line splitting. The file is a sequence of lines.
- The `LOGGER` message is not modelled.
- Nucleotides.getState is a parameter `getState`.
- `Taxa.getTaxonIndex` is the first-position lookup `TaxonIndex`.
- LambertFormat.ParseLines, LambertFormat.Rows, LambertFormat.ReadRow: the parser reads each line with the corrected field-by-field reader `RecordOf`, not the code's `nextInt`, which leaves a non-integer count unread. The two agree on every file of written records (`WrittenFileParsesAlike`). They differ once a count is not an integer: `BadCountFileParses` shows the difference.
- The `Patterns` sink is modelled as the list of added patterns. Merging of identical patterns is not modelled.
- An exception thrown while a block is being added discards the whole parse. The model returns the error instead of the partly filled sink.
- The XML parser wiring (`parseXMLObject` beyond the loop, syntax rules, descriptions) is not modelled.

## Findings

| source | as written | input that shows it | evidently intended | confidence | as-written member | corrected member |
|---|---|---|---|---|---|---|
| src/org/compevol/ssgd/PairedPatterns.java:76-89 | `getTaxonIndex` returning -1 for an unknown taxon is not checked; the row is then computed with m = -1 | taxa t0,t1,t2, an unknown taxon u paired with t2: row `-1 + 2·1/2 = 0`, the cell of pair (t0, t1) | reject a taxon that is not in the list | not executed | PatternTable.UnknownTaxonAliasesAnotherPair | PatternTable.Cell |
| src/org/compevol/ssgd/LambertFormatParser.java:112-118 | after an `InputMismatchException`, `nextInt` does not consume the bad token, so the following counts read it again and the sequence becomes that token | the line `g1,t1,x,5,6,7,ACGT` reads as counts 0,0,0,0 and sequence `x` | a bad count reads as 0 and the next field is read next | not executed | LambertRecord.BadCountAsWritten | LambertRecord.BadCountCorrected |
