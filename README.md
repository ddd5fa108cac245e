# M1 channelopathy model: scoring and network derivation rules

This project models, in Dafny, the parts of an M1 cortical network
simulation that are pure logic, and proves properties of them. Everything
around them is left to the simulator. The modelled parts are:

- **Fitness model** (`Fitness`, src/init_batch.py).
  - `rateFitnessFunc` scores a run from its population firing rates.
  - Each population gets a penalty of `min(exp(factor * |target - rate| / width), maxFitness)` when its rate is above the population's floor, and `maxFitness` otherwise.
  - The loss is the mean of the penalties.
  - The factor is 1.5 when the optional layer-ordering conditions are requested and one of them fails.
  - The driver builds the table of tuning targets with the E and I loops, scores the run with `maxFitness` 1000, and merges the inputs with the rates and the loss into the result record. Its I list is a parameter: as written it lists PV4 and SOM4 and raises on every run (see "Findings"); the corrected list holds the eight I populations the network defines.
- **Network derivation rules** (`NetParams`, src/netParams.py).
  - `Config` is a class over the fields of `cfg` that the script reassigns: the KgbarFactor offset and the three gain-defaulting rules (E→I, I→E, I→I).
  - The potassium `gbar` scaling of loaded cell rules works in place on a `NetParams` object.
  - All 72 I→all connection rules are built in place, following the three nested loops.
  - Also modelled: the end time of a pulse, and the post-synaptic conditions of the long-range subcellular rules.
- **Search space** (`Search`, src/batch.py and src/batchtools_expanse.py; `min` and `max` in `Seqs`). Both files compute one `'float'` sampler per parameter, and bounds one below the least and one above the greatest listed value.
- **Supporting modules**.
  - `Text`: Python's `str.split` and `str(d)`.
  - `Results`: `Option` and `Result`.
  - `Seqs`: Python's `min` and `max` over a non-empty list.

How the model represents the source:

- **Errors.** Most Python exceptions the modelled code can raise are error values in the model:
  - a missing population rate is a `KeyError`;
  - a zero width is a `ZeroDivisionError`;
  - `np.mean` of an empty list gives NaN;
  - a gain mean involving `None` is a `TypeError`;
  - a malformed subcellular key is an unpacking error, an `IndexError` when the post part has no 'L', or a `KeyError` for an unknown layer.

  A few are preconditions instead; each is listed under "Left out": a K mechanism without `gbar` (`ScaleRule` and the K-scaling methods), a gain still `None` or a zero synapse count in the I→all block (`AddIAllRules`), and an empty value list in the search space (`ParamBounds`).
- **Dicts.** A Python dict whose order matters is an insertion-ordered list of pairs. Assignment keeps an existing key in place and appends a new one.
- **Numbers and `exp`.** Rates and weights are real numbers. The exponential is a parameter `exp`, and the lemmas that need it rely only on `ExpLaws(exp)`: `exp(0) = 1`, `exp` is positive, and `exp` is strictly increasing.

Two properties of the I→all loop follow from its loop-carried variables, and the model proves both:

- `disynapticBias` is assigned only for E targets. It therefore carries into the I→I rules that follow. In the L5 and L6 iterations those rules hold `cfg.IEdisynapticBias`, although the comment where the variable is initialised says I→I rules use `None`.
- `synWeightFraction` is never assigned for PV→E. Those rules carry the `[1]` of the SOM-target rules (ipost 3) of the previous presynaptic iteration: SOM→SOM before the first PV iteration, PV→SOM before the others.

The model follows the code here. The difference disappears with the configuration's default `IEdisynapticBias = None`.

## Model

| member | source | states |
|---|---|---|
| Fitness.Put | src/init_batch.py:97-98 | a dict assignment `pops[k] = v` keeps an existing key in place and appends a new key at the end |
| Fitness.PutMembers | src/init_batch.py:97-98 | after `t[k] = v`, `k` holds `v` and every entry under another key is still present |
| Fitness.PutAllMembers | src/init_batch.py:97-107 | after `for k in ks: t[k] = v` the keys are exactly the old keys and `ks`, each `k` in `ks` holds `v`, and entries under other keys are kept |
| Fitness.PutAllKeepsDistinct | src/init_batch.py:97-107 | `for k in ks: t[k] = v` never duplicates a key, as a Python dict cannot |
| Fitness.PutValues | src/init_batch.py:106-107 | after `t[k] = v` on a table with distinct names, `k` holds `v` and every other entry is unchanged |
| Fitness.PutKeepsDistinct | src/init_batch.py:97-98 | dict assignment never duplicates a key |
| Fitness.PutAllFresh | src/init_batch.py:97-107 | filling a table with distinct new names appends one entry per name, in order, all with the same tuning |
| Fitness.Penalty | src/init_batch.py:55-56 | a population's penalty never exceeds maxFitness, and it is exactly maxFitness when the rate is at or below the floor (the floor test is strict) |
| Fitness.PopFitness | src/init_batch.py:55-56 | the penalty list succeeds iff every population has a rate and a non-zero width wherever its rate is above the floor. It then holds one penalty per population, in order. Otherwise it fails with the error of the first population that cannot be scored |
| Fitness.MeanWithin | src/init_batch.py:57 | a mean lies within any lower and upper bound of the values it averages |
| Fitness.Mean | src/init_batch.py:57 | `np.mean` of a non-empty list lies between its least and its greatest value |
| Fitness.Exceeds | src/init_batch.py:45-48 | a rate comparison succeeds iff both populations have rates, and its value is then whether the first rate is greater. A missing first population is reported before a missing second |
| Fitness.BothExceed | src/init_batch.py:32-39 | the short-circuit `and`: a failing first lookup is the error; a false first comparison gives false without reading the second pair; a true one gives the second comparison |
| Fitness.IEConds | src/init_batch.py:32-39 | the four I-above-E conditions: with every population present they are the layer ordering's first four; success implies the PV and IT rates of all four layers were found |
| Fitness.PVSOMConds | src/init_batch.py:45-48 | the four PV-above-SOM conditions succeed iff all eight PV and SOM rates are present, and are then the layer ordering's last four |
| Fitness.OrderingConds | src/init_batch.py:30-51 | the conditions succeed iff all 14 populations they read have rates, and are then exactly the layer ordering (I above E in each layer, L5 above L6 above L2/3, PV above SOM). A failure names a missing population the conditions read |
| Fitness.Factor | src/init_batch.py:28-53 | the factor is 1 without extraConds. With them it succeeds iff all 14 ordering populations have rates, and is then 1 iff all ten conditions hold, and 1.5 otherwise |
| Fitness.RateFitness | src/init_batch.py:23-62 | the loss succeeds only when every scored population has a rate, and is then at most maxFitness. Without extraConds it succeeds iff the table is non-empty and every entry is scorable. Each error names its cause |
| Fitness.PenaltyOnTarget | src/init_batch.py:55 | at the target rate, above the floor, the penalty is exp(0) = 1, clipped by maxFitness |
| Fitness.ExponentMonotone | src/init_batch.py:55 | with a positive width and non-negative factors, the exponent factor·abs(target − rate)/width is non-negative and grows with the factor and with the distance of the rate from the target |
| Fitness.PenaltyAtLeast | src/init_batch.py:55 | with a positive width and a non-negative factor, no penalty is below min(1, maxFitness) |
| Fitness.PenaltyPositive | src/init_batch.py:55-56 | every penalty is positive when maxFitness is |
| Fitness.PenaltyMonotone | src/init_batch.py:55 | above the floor, with a positive width, the penalty does not decrease as the rate moves away from the target |
| Fitness.PenaltyFactorMonotone | src/init_batch.py:53-55 | the 1.5 factor never lowers a penalty: the penalty does not decrease as the factor grows |
| Fitness.LossIsMeanOfPenalties | src/init_batch.py:55-57 | a successful loss is the mean of one penalty per population, each in (0, maxFitness], so the loss lies in (0, maxFitness] |
| Fitness.LossAtLeastOne | src/init_batch.py:55-57 | with positive widths the loss is at least min(1, maxFitness) |
| Fitness.BuildTuneTable | src/init_batch.py:93-107 | the two loops build the table of dict assignments: every E population with Etune, then every I population with Itune |
| Fitness.TuneTable | src/init_batch.py:93-107 | the built table has exactly the E and I populations as keys, each once; every entry under an I population holds Itune and every entry under an E population not also listed as I holds Etune |
| Fitness.TuneTableLayout | src/init_batch.py:95-107 | with distinct names, the table lists the E populations with their tuning, then the I populations with theirs, in list order |
| Fitness.DriverPopsInNetwork | src/netParams.py:427-441 | every E population and every defined I population the driver scores is a population of the network |
| Fitness.FirstMissingRaises | src/init_batch.py:55-56 | scoring raises KeyError on the first population without a rate once every population before it can be scored |
| Fitness.DriverListsDistinct | src/init_batch.py:95-104 | the driver's population lists have no repeats, and the E and I lists are disjoint |
| Fitness.AsWrittenTableLayout | src/init_batch.py:95-107 | in the table as written, PV4 is the tenth entry, after nine scorable populations |
| Fitness.AsWrittenDriverFails | src/init_batch.py:100-111 | as written, every run whose rates cover the network (which has no PV4) fails with KeyError('PV4') |
| Fitness.TableScorable | src/init_batch.py:95-109 | every entry of the corrected table has a rate and a positive width |
| Fitness.DriverTable | src/init_batch.py:93-108 | the corrected driver table is the 7 E entries followed by the 8 I entries |
| Fitness.TableWidths | src/init_batch.py:96-105 | whatever I list the driver is given, its table is non-empty and every width is positive, so its scoring can only fail on a missing rate |
| Fitness.DriverScorable | src/init_batch.py:108-111 | with rates for every network population, the corrected driver's scoring succeeds |
| Fitness.DriverScores | src/init_batch.py:108-111 | with rates for every network population, the corrected driver's loss lies in [1, 1000] |
| Fitness.Record | src/init_batch.py:112-113 | the record has the input keys, the rate keys and "loss". The loss wins over both, the rates win over the inputs, and other inputs are kept |
| Fitness.ScoreTrial | src/init_batch.py:93-113 | the driver over a given I list succeeds iff the rates can be scored, and a failure is a missing rate. With the I list as written (PV4, SOM4) every run covering the network fails with KeyError('PV4'); with the corrected list it always succeeds. The record then holds the loss under "loss" and is the merge above |
| NetParams.ResolvePair | src/netParams.py:597-601 | a truthy combined gain overwrites both pair gains. Otherwise the combined gain becomes their mean, and the rule fails iff one of them is unset. On success the combined gain is always the mean of the pair |
| NetParams.ZeroPairGainIsUnset | src/netParams.py:629-633 | a combined gain of 0 behaves exactly like an unset (None) one |
| NetParams.ResolveQuad | src/netParams.py:635-641 | a truthy IIGain overwrites the four I→I gains. Otherwise IIGain becomes their mean, and the rule fails iff one of them is unset |
| NetParams.Config.ApplyKgbarOffset | src/netParams.py:58-59 | with the flag set, KgbarFactor becomes 0.5 + newFactor (so at least 0.5 for a non-negative newFactor). Otherwise it is unchanged |
| NetParams.Config.ResolveEIGains | src/netParams.py:597-601 | the E→I gains become the result of the pair rule. On the TypeError path nothing is assigned |
| NetParams.Config.ResolveIEGains | src/netParams.py:629-633 | the I→E gains become the result of the pair rule. On the TypeError path nothing is assigned |
| NetParams.Config.ResolveIIGains | src/netParams.py:635-641 | the I→I gains become the result of the four-gain rule. On the TypeError path nothing is assigned |
| NetParams.ScaleRule | src/netParams.py:82-86 | only the `gbar` of mechanisms whose name starts with 'k' (except kBK) is multiplied by the factor. Every other section, mechanism, parameter and section list is unchanged |
| NetParams.ScaleRuleByOne | src/netParams.py:86 | the default KgbarFactor 1 leaves a cell rule unchanged |
| NetParams.Loaded | src/netParams.py:78-86 | a loaded rule keeps the file's sections and section lists; it is the file's rule itself when the label is not K-scaled or the factor is 1 |
| NetParams.NetParams.ScaleSectionInPlace | src/netParams.py:84-86 | the in-place loop over one section's K mechanisms leaves that section scaled and everything else untouched |
| NetParams.NetParams.AdaptKGbar | src/netParams.py:376-378 | the in-place loop over the sections leaves the cell rule equal to its scaled version and every other rule untouched |
| NetParams.NetParams.LoadCellRules | src/netParams.py:78-86 | after loading, every listed label holds its file's rule, scaled exactly when it is one of the seven K-scaled rules. Unlisted rules are kept |
| NetParams.NumIPre | src/netParams.py:661 | the number of presynaptic iterations is at most 6 and at most the length of each doubled weight list |
| NetParams.LoopConstants | src/netParams.py:645-649 | which branch each loop index takes: PV presynaptic types are exactly indices 3-5, the post types are PT, IT/CT, PV and SOM, and only the third model is HH_full |
| NetParams.IRuleEntries | src/netParams.py:661-663 | the block produces 12 rules per presynaptic iteration |
| NetParams.IRule | src/netParams.py:664-719 | the rule of iteration (i, ipost, m) has the iteration's pre type, post type and cell model, and its disynaptic bias is None for the L2/3 iterations and IEdisynapticBias for the others, whatever the target |
| NetParams.EntryAt | src/netParams.py:708-709 | entry 12i + 3·ipost + m holds the label and rule of iteration (i, ipost, m) |
| NetParams.ILabelParts | src/netParams.py:708 | `ILabel(i, ipost, m)` reads back as `I_`, the cell model, and the digits of i and ipost after underscores |
| NetParams.ILabelInjective | src/netParams.py:708 | different iterations give different rule labels |
| NetParams.IRuleLabelsDistinct | src/netParams.py:661-708 | the block's labels are pairwise distinct: 12 per iteration, 72 with the configured three-layer weights |
| NetParams.InsertAllContents | src/netParams.py:709 | after the block, each label maps to its rule and every other rule of connParams is unchanged |
| NetParams.IRuleWeight | src/netParams.py:664-714 | each rule's weight is the layer weight times the pair gain, times IPTGain for PT targets and IFullGain for HH_full, over the model's synapses per connection |
| NetParams.BaseWeightProduct | src/netParams.py:647-702 | the weight before the HH_full gain and the synsperconn division is the layer weight (IE for E targets, II for I targets, repeated over the two type triples) times the pair gain, times IPTGain for PT targets |
| NetParams.IRuleSecAndMech | src/netParams.py:664-703 | the section is soma iff the target is PV or SOM, perisom for PV→E and spiny for SOM→E. The mechanisms are PVSynMech iff the source is PV, SOMISynMech for SOM→I and SOMESynMech for SOM→E |
| NetParams.IIRulesInheritDisynapticBias | src/netParams.py:650-694 | as written, with a set IEdisynapticBias b, the L5 and L6 I→I rules hold b, while the rule as line 651's comment describes it holds None |
| NetParams.IntendedRuleDiffersOnlyInBias | src/netParams.py:651 | the rule as commented has no disynaptic bias on I targets, and on E targets it is the written rule |
| NetParams.IRuleIntended | src/netParams.py:650-651 | the rule as the comment at line 651 describes it has no disynaptic bias on I targets, and differs from the written rule in that field only |
| NetParams.NetParams.IBranches | src/netParams.py:664-703 | the post-type branches give the base weight, mechanisms and section of the rule. They leave disynapticBias holding the iteration's IEdisynBias and synWeightFraction its per-type value |
| NetParams.NetParams.IRuleStep | src/netParams.py:664-719 | one pass of the loop body builds exactly the rule of iteration (i, ipost, m) |
| NetParams.NetParams.AddIRule | src/netParams.py:704-719 | one pass stores that rule under its label `I_<model>_<i>_<ipost>` and changes nothing else |
| NetParams.NetParams.AddPostTypeRules | src/netParams.py:663-719 | the innermost loop inserts the three rules of one post type, in cell-model order |
| NetParams.NetParams.AddIRulesOf | src/netParams.py:662-719 | the post-type loop inserts the 12 rules of one presynaptic iteration, in order |
| NetParams.NetParams.AddIBlock | src/netParams.py:645-719 | the three nested loops, run from the initial carried values, leave connParams equal to the old rules with every (i, ipost, model) rule inserted in loop order |
| NetParams.NetParams.AddIAllRules | src/netParams.py:643-719 | when connections are on and IEGain or IIGain is positive, connParams becomes the old rules with every rule of the block inserted in loop order. Otherwise it is unchanged |
| NetParams.PulseEnd | src/netParams.py:492-493 | a positive duration sets end = start + duration (so end > start). Otherwise the configured end is kept |
| NetParams.SubConnPostConds | src/netParams.py:785-789 | the key fails to unpack iff it does not split into two pieces at '_'. A successful result targets IT and CT cells, PT cells iff the source is OC or TPO, and a non-empty range |
| NetParams.SubConnPostOfKey | src/netParams.py:785-789 | for a key `<pre>_L<layer>`, the rule targets the layer's range (L2 extended to the end of L4), IT and CT cells, and PT cells exactly when the source is OC or TPO |
| Text.Split | src/netParams.py:786 | `split` returns at least one piece, and no piece contains the separator |
| Text.JoinSplit | src/netParams.py:786 | `split` loses nothing: joining the pieces with the separator gives the string back |
| Text.Digit | src/netParams.py:708 | `str(d)` of a digit is the one character whose code is '0' + d |
| Seqs.MinOf | src/batch.py:28 | `min(values)` is one of the values and no value is smaller |
| Seqs.MaxOf | src/batch.py:28 | `max(values)` is one of the values and no value is larger |
| Search.Widen | src/batchtools_expanse.py:19-21 | the bounds are one below the smallest and one above the largest listed value. Every value lies strictly inside, and the range is at least 2 wide |
| Search.UniformBounds | src/batch.py:27-29 | when every parameter lists the same values, every parameter gets the same bounds |
| Search.ParamBounds | src/batch.py:27-29 | `param_bounds` has the same keys in the same order, and each key's bounds are `Widen` of its listed values: exactly one below the least and one above the greatest value, containing every value strictly and spanning at least 2 |
| Search.Samplers | src/batch.py:25 | one `'float'` sampler per search-space key |
| Search.SearchSpaceBounds | src/batchtools_expanse.py:7-21 | for the launchers' seven-parameter space, every parameter gets the bounds [-0.5, 2.5] and a float sampler |

## Left out

- Simulator calls are not modelled: creating the network, running it, gathering data, averaging rates and sending the result. The rates map and the inputs dict are parameters of `ScoreTrial`.
- The printed `popInfo` summary and the JSON serialisation are not modelled. They are output only.
- Floating point is modelled as exact real arithmetic. NaN, infinities and rounding are not modelled.
- `np.exp` is a parameter, and its laws are a hypothesis of the lemmas that need them.
- The E→E, E→I, long-range and subcellular density rules are not modelled. They follow the same pattern as the I→all block.
- Cell import from hoc and Python templates, weight normalisation, the channel mutant branch, population densities and stimulation sources are not modelled. They depend on files and classes outside the core.
- cfg.py is not modelled. Its values enter as the fields of `Config`.
- The launcher scripts, the optimiser calls and the scheduler configurations are not modelled.
- The pulse attachment (src/netParams.py:495-497) is not modelled; only the end time is. As written, a population created without a `'pulses'` key (the local populations, src/netParams.py:427-441) gets `{}` and then an `append` call on it, which a Python dict does not have. The long-range populations are created with `'pulses': []` (src/netParams.py:461), so the append works for them.
- `dir(cfg)` enumeration of pulse settings is not modelled.
- NetParams.NetParams.AddIAllRules: requires every gain it uses to be a number. It also requires a non-zero synapse count for each cell model. The TypeError of comparing `None` and the KeyError or division by zero on `synsperconn` are not modelled.
- NetParams.ScaleRule: requires every K mechanism of the rule to have a `gbar`. The KeyError otherwise is not modelled.
- NetParams.NetParams.ScaleSectionInPlace: requires every K mechanism to have a `gbar`. The KeyError otherwise is not modelled. The same holds for NetParams.NetParams.AdaptKGbar and NetParams.NetParams.LoadCellRules.
- NetParams.NetParams.LoadCellRules: the rule files are given as a map from label to rule, so reading pickle files is not modelled.
- Search.ParamBounds: requires a non-empty value list for every key. The ValueError of `min([])` is not modelled.
- NetParams.SubConnPostOfKey: states the well-formed keys `<pre>_L<layer>` only. For other keys `SubConnPostConds` returns the error that the unpacking or lookup raises.

## Findings

| source | as written | input that shows it | evidently intended | confidence | as-written member | corrected member |
|---|---|---|---|---|---|---|
| src/init_batch.py:100-104 | the I list scored by the driver includes PV4 and SOM4, which the network never defines (src/netParams.py:427-441). Scoring looks every listed population up, so it raises KeyError('PV4') | any run, since its rates cover the 15 defined populations and never PV4 | score the eight I populations the network defines (PV2, SOM2, PV5A, SOM5A, PV5B, SOM5B, PV6, SOM6); L4 interneurons belong to PV2 and SOM2 | not executed | Fitness.AsWrittenDriverFails | Fitness.ScoreTrial |
