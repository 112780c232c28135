# Fuzzy rate control of the ns-3 UDP client

This project models the fuzzy-logic rate controller built into the ns-3.27
`UdpClient` application (`src/applications/model/udp-client.cc`). The model
is in Dafny, and its properties are proved.

The receiver sends feedback: the number of packets dropped in the last
period, and the mean one-way delay. On each reading the client runs one
Mamdani inference pass. It then uses the crisp result as the new interval
between sends.

The model has four layers, one module each:

- `FuzzyLogic` (`fuzzy_logic.dfy`):
  - triangular sets and the membership formula of `FuzzyVar::activation`;
  - the `min`/`max` macros behind `op_And` and `op_Agg`;
  - `std::map::insert` semantics (an existing entry is never overwritten).
- `Variables` (`variables.dfy`):
  - `FuzzyVar` as a class whose set table is a map field, updated in place by `AddSet`;
  - `FuzzyVarOut`, which wraps a `FuzzyVar` and adds the per-set clipping level `u_max` (here `uMax`). Its methods `Reset`, `ResetSet` and `SetUMax` change that map in place.
- `Inference` (`inference.dfy`): the inference pass as pure functions of an
  engine configuration (`Engine`).
  - Each rule's firing strength is the minimum of its two antecedent degrees.
  - Aggregation per consequent is the maximum, starting from the reset value 0.
  - The output sets are clipped.
  - The result is the centroid over the integer points of `[lo, hi)`. It is clamped to the output universe and scaled from microseconds to seconds.
  - Every lemma here holds for any configuration, not only the one the client builds.
- `FuzzyEngine` (`engine.dfy`): the `Fuzzy` class.
  - `Eval` is the imperative `eval`: reset, a rule loop, and a centroid loop with an inner loop over the output sets.
  - It is proved equal to the functional specification `EvalSpec`.
  - It also states what it leaves in the accumulators.
- `Controller` (`controller.dfy`): the `UdpClient` side.
  - the literal set and rule tables of the constructor (`ReferenceEngine`);
  - `HandlePacket` (per-reading update of `drops_old`, `delay_old`, `delay_min` and the interval), and `adjust_rate`;
  - `HandleRead`'s gating of incoming packets;
  - the send counter of `Send` and its reschedule decision.

  The client's behaviour over sequences of readings (`FeedAll`) and of sends (`SendChain`) is stated as functions, with lemmas about them.

Two defects of `eval` are decided explicitly:

- **`weight` is declared without an initial value** (line 203). The model's `eval` starts the sum at 0. The behaviour as written is kept beside it (`EvalFromWeight`), and the difference is shown under "Findings".
- **The mass `a` can be 0** (line 220), for example at 1000 drops, where every loss set has degree 0. The model follows the compiled behaviour:
  - `weight / 0` is NaN when `weight` is 0, and the `max` macro then yields `limit_min`;
  - it is +inf when `weight` is positive, which clamps to `limit_max`.

  So with the corrected start of 0, zero mass gives `limit_min / 1e6` (`Finish`, `NoRuleFiresGivesFloor`, `LossGap`).

Three further points about the code itself:

- **Zero mass.** `eval` has no zero-mass policy; it divides as above.
- **Fuzzy control off.** The ×0.75/×2 fallback in `adjust_rate` is under `#else` and is never compiled. With fuzzy control off, the interval never changes.
- **No validation.** `add_set` validates nothing: a duplicate name keeps its first triangle, and an unknown name reads a zero triangle.

## Model

All source paths are under `ns-3.27/src/applications/model/`.

| member | source | states |
|---|---|---|
| FuzzyLogic.Min | ns-3.27/src/applications/model/udp-client.cc:44 | the `min` macro returns one of its two arguments and is no larger than either |
| FuzzyLogic.Max | ns-3.27/src/applications/model/udp-client.cc:45 | the `max` macro returns one of its two arguments and is no smaller than either |
| FuzzyLogic.OpAnd | ns-3.27/src/applications/model/udp-client.cc:171-174 | fuzzy AND returns one of its two arguments and is no larger than either (the `min` macro) |
| FuzzyLogic.OpAgg | ns-3.27/src/applications/model/udp-client.cc:176-179 | aggregation returns one of its two arguments and is no smaller than either (the `max` macro) |
| FuzzyLogic.InsertNew | ns-3.27/src/applications/model/udp-client.cc:58 | `insert` adds the key; an existing entry keeps its value; a new key gets the given value |
| FuzzyLogic.Lookup | ns-3.27/src/applications/model/udp-client.cc:70 | `sets[set]` yields the stored triangle, and a zero triangle for a name never added |
| FuzzyLogic.Get | ns-3.27/src/applications/model/udp-client.cc:145 | `u_max[set]` yields the stored value, and 0.0 for a name without one |
| FuzzyLogic.Membership | ns-3.27/src/applications/model/udp-client.cc:61-81 | degree in [0, 1]; 0 outside the universe or outside [a, c]; exactly 1 iff the value is the peak b of a set with a <= b < c inside the universe; defined everywhere except the one division by zero (b == c, value == b) |
| FuzzyLogic.Degree | ns-3.27/src/applications/model/udp-client.cc:61-81 | the degree of a value in a set looked up by name is in [0, 1]; it is 0 outside the limits and 0 for a name never added |
| FuzzyLogic.MembershipRises | ns-3.27/src/applications/model/udp-client.cc:75-76 | on the rising side [a, b) the degree grows strictly |
| FuzzyLogic.MembershipFalls | ns-3.27/src/applications/model/udp-client.cc:77-78 | on the falling side [b, c] the degree shrinks strictly |
| Variables.FuzzyVar.constructor | ns-3.27/src/applications/model/udp-client.cc:47-52 | a variable with the given name and limits and no sets |
| Variables.FuzzyVar.AddSet | ns-3.27/src/applications/model/udp-client.cc:54-59 | the set table is the old one with the set inserted; a name already present keeps its first triangle; the enumeration lists each name once |
| Variables.FuzzyVar.Activation | ns-3.27/src/applications/model/udp-client.cc:61-81 | the degree of the value in the named set: in [0, 1], 0 outside the limits, 0 for a name never added |
| Variables.FuzzyVar.GetSets | ns-3.27/src/applications/model/udp-client.cc:83-91 | exactly the names of the sets, each once |
| Variables.FuzzyVarOut.constructor | ns-3.27/src/applications/model/udp-client.cc:110-113 | an output variable with the given limits, no sets and no accumulators |
| Variables.FuzzyVarOut.AddSet | ns-3.27/src/applications/model/udp-client.cc:115-119 | the set is inserted as by `FuzzyVar::add_set`, and a new name gets accumulator 0; an existing name keeps both its triangle and its accumulator |
| Variables.FuzzyVarOut.GetUMax | ns-3.27/src/applications/model/udp-client.cc:143-146 | the accumulator of the name, or 0 when it has none |
| Variables.FuzzyVarOut.SetUMax | ns-3.27/src/applications/model/udp-client.cc:148-151 | only the named accumulator changes, to the given value |
| Variables.FuzzyVarOut.Activation | ns-3.27/src/applications/model/udp-client.cc:121-130 | min-implication: the result equals the accumulator or the membership, is no larger than either, and is at most 1 |
| Variables.FuzzyVarOut.ResetSet | ns-3.27/src/applications/model/udp-client.cc:132-135 | the named accumulator becomes 0; every other one is unchanged |
| Variables.FuzzyVarOut.Reset | ns-3.27/src/applications/model/udp-client.cc:137-141 | every defined set's accumulator becomes 0; entries for other names and the key set are unchanged |
| Inference.WellConfiguredIsEvaluable | ns-3.27/src/applications/model/udp-client.cc:186-214 | with sharp falling slopes, rules that name defined sets and an output enumeration of exactly the output sets, no membership of an evaluation divides by zero, for any inputs |
| Inference.Strength | ns-3.27/src/applications/model/udp-client.cc:189-191 | a rule's strength is in [0, 1], at most each antecedent degree, and equal to one of them |
| Inference.AccumulateFrom | ns-3.27/src/applications/model/udp-client.cc:186-201 | the rule loop never lowers an accumulator, and it keeps an accumulator that starts at most 1 at most 1 |
| Inference.Aggregate | ns-3.27/src/applications/model/udp-client.cc:184-201 | an accumulator after the reset to 0 and the rule loop lies in [0, 1] |
| Inference.Accumulators | ns-3.27/src/applications/model/udp-client.cc:184-201 | after the pass there is one accumulator per output set, each in [0, 1] |
| Inference.Sample | ns-3.27/src/applications/model/udp-client.cc:209-214 | every aggregated sample `u` lies in [0, 1] |
| Inference.Scan | ns-3.27/src/applications/model/udp-client.cc:208-218 | the scan takes one sample per integer point from lo up to k |
| Inference.ScanNonNegative | ns-3.27/src/applications/model/udp-client.cc:208-218 | no sample of the scan is negative |
| Inference.ScanElements | ns-3.27/src/applications/model/udp-client.cc:208-214 | the j-th sample of the scan is the aggregated output at lo + j |
| Inference.ScanGrows | ns-3.27/src/applications/model/udp-client.cc:216-217 | one more point adds its sample to `a`, and the sample times the point to `weight` |
| Inference.Finish | ns-3.27/src/applications/model/udp-client.cc:220-223 | the clamped, rescaled result lies in [lo/1e6, hi/1e6]; zero mass with a non-positive sum gives the lower limit (NaN or -inf through the `max` macro) |
| Inference.EvalSpec | ns-3.27/src/applications/model/udp-client.cc:181-226 | the result of an evaluation lies within the output universe, in seconds |
| Inference.AggregateIsMaximum | ns-3.27/src/applications/model/udp-client.cc:186-201 | an accumulator is at least the strength of every rule with that consequent, equals one of those strengths or 0, and is 0 when no rule names it |
| Inference.AggregateOfSilentRules | ns-3.27/src/applications/model/udp-client.cc:184-201 | when every rule has strength 0, every accumulator stays at 0 |
| Inference.AggregateUnique | ns-3.27/src/applications/model/udp-client.cc:186-201 | two rule lists with the same rules give the same accumulator |
| Inference.EvalOrderIndependent | ns-3.27/src/applications/model/udp-client.cc:186-201 | any permutation of the rule list gives the same result |
| Inference.AggregateSameLing | ns-3.27/src/applications/model/udp-client.cc:189-190 | the rule pass reads only the two input variables |
| Inference.SampleIsMaximum | ns-3.27/src/applications/model/udp-client.cc:211-214 | the aggregated sample is at least every clipped set at that point, and equals one of them or 0 |
| Inference.SampleOfSilentRules | ns-3.27/src/applications/model/udp-client.cc:211-214 | with every accumulator at 0, every sample is 0 |
| Inference.MassIsNonNegative | ns-3.27/src/applications/model/udp-client.cc:217 | the mass `a` of non-negative samples is non-negative |
| Inference.MomentBetweenEnds | ns-3.27/src/applications/model/udp-client.cc:216-217 | `weight` lies between lo times the mass and the last scanned point times the mass |
| Inference.ZeroMassZeroMoment | ns-3.27/src/applications/model/udp-client.cc:216-220 | a zero mass forces a zero `weight` |
| Inference.FinishOfScan | ns-3.27/src/applications/model/udp-client.cc:220-223 | with positive mass, weight / a is a scanned point in [lo, hi - 1], so the clamp leaves it unchanged; with zero mass the result is the lower limit |
| Inference.EvalCentroid | ns-3.27/src/applications/model/udp-client.cc:203-225 | an evaluation returns the centroid of the aggregated output in seconds when the mass is positive, and the lower limit otherwise |
| Inference.SilentAccumulatorsSilentScan | ns-3.27/src/applications/model/udp-client.cc:208-218 | with every accumulator at 0, the mass and the weighted sum are 0 |
| Inference.NoRuleFiresGivesFloor | ns-3.27/src/applications/model/udp-client.cc:220-222 | when no rule fires, the mass is 0 and the result is `limit_min / 1e6` |
| Inference.EvalFromWeight | ns-3.27/src/applications/model/udp-client.cc:203-223 | `eval` as written, with the sum starting from the stale `weight`: the result is still within the output universe, and it is the corrected result when the stale value is 0 |
| Inference.UninitialisedWeightMatters | ns-3.27/src/applications/model/udp-client.cc:203-220 | with no rule firing, a stale positive `weight` gives the upper limit, where a sum started at 0 gives the lower one |
| FuzzyEngine.AccumulateUntouched | ns-3.27/src/applications/model/udp-client.cc:199-200 | a name that no rule uses as its consequent keeps its value through the rule loop |
| FuzzyEngine.Fuzzy.constructor | ns-3.27/src/applications/model/udp-client.cc:154-156 | an engine with no variables and no rules |
| FuzzyEngine.Fuzzy.SetVars | ns-3.27/src/applications/model/udp-client.cc:158-163 | the engine is wired to exactly the given variables |
| FuzzyEngine.Fuzzy.AddRule | ns-3.27/src/applications/model/udp-client.cc:165-169 | the rule is appended after the existing ones |
| FuzzyEngine.Fuzzy.Eval | ns-3.27/src/applications/model/udp-client.cc:181-226 | the result is `EvalSpec` of the configuration, whatever the accumulators held before, so two calls with equal inputs agree; the configuration is unchanged; each output set's accumulator is its aggregate; other consequent names follow the rule loop from their old value; the key set grows by the rules' consequents |
| FuzzyEngine.Fuzzy.FireRules | ns-3.27/src/applications/model/udp-client.cc:186-201 | after the rule loop every accumulator is the in-order max of the rule strengths over its old value, and the consequents have entries |
| FuzzyEngine.Fuzzy.Fire | ns-3.27/src/applications/model/udp-client.cc:189-200 | one rule raises its consequent's accumulator to the max of the rule's strength and its old value; nothing else changes |
| FuzzyEngine.Fuzzy.Centroid | ns-3.27/src/applications/model/udp-client.cc:203-218 | the scan loop returns the mass and the weighted sum of the aggregated samples over [lo, hi) |
| FuzzyEngine.Fuzzy.Aggregated | ns-3.27/src/applications/model/udp-client.cc:209-214 | the inner loop returns the aggregated output at the point |
| Controller.ReferenceWellConfigured | ns-3.27/src/applications/model/udp-client.cc:288-320 | the constructor's tables never divide by zero, for any drops and delay |
| Controller.ReferenceRulesDefined | ns-3.27/src/applications/model/udp-client.cc:309-320 | every rule names a defined loss set and a defined delay set |
| Controller.ReferenceOrder | ns-3.27/src/applications/model/udp-client.cc:301-305 | the output sets are enumerated, and only they are |
| Controller.Rate | ns-3.27/src/applications/model/udp-client.cc:475 | the interval `adjust_rate` computes lies within the output universe, in seconds |
| Controller.ReferenceRateRange | ns-3.27/src/applications/model/udp-client.cc:290 | with the constructor's tables the interval is always between 10 us and 1 s |
| Controller.LossGap | ns-3.27/src/applications/model/udp-client.cc:292-294 | at 1000 and at 3000 drops no rule fires, so the interval falls to 10 us, the fastest rate, whatever the delay |
| Controller.NoLossRuleFires | ns-3.27/src/applications/model/udp-client.cc:292-294 | at those drop counts every rule's strength is 0 |
| Controller.LossSetsSilent | ns-3.27/src/applications/model/udp-client.cc:292-294 | 1000 and 3000 have degree 0 in every loss set |
| Controller.StaleWeightAtLossGap | ns-3.27/src/applications/model/udp-client.cc:203-223 | at 1000 drops, `eval` as written returns 1 s for any positive stale `weight`; starting from 0 it returns 10 us |
| Controller.DelayMinTracksMinimum | ns-3.27/src/applications/model/udp-client.cc:433-434 | with positive delays, `delay_min` is positive and is the minimum of its start value, the first `delay_old` and every delay recorded before the latest one; it equals one of them |
| Controller.DelayMinFromUnset | ns-3.27/src/applications/model/udp-client.cc:433-434 | from the first start (`delay_old` and `delay_min` both 0) with positive delays: the minimum is still 0 after one reading; from the second reading on it is positive, at most every delay recorded before the latest one, and equal to one of them |
| Controller.LastReading | ns-3.27/src/applications/model/udp-client.cc:446-447 | after handling readings, `drops_old` and `delay_old` are those of the latest reading |
| Controller.IntervalFollowsLatestReading | ns-3.27/src/applications/model/udp-client.cc:443-444 | enabled, the interval is the engine's output for the latest reading, within the output universe; disabled, it never changes |
| Controller.AcceptedReadings | ns-3.27/src/applications/model/udp-client.cc:408-416 | a stopped or exhausted client handles no packet; each handled reading comes from a non-empty packet; when every packet is non-empty, each is handled, in order |
| Controller.AcceptedHandlesEvery | ns-3.27/src/applications/model/udp-client.cc:408-415 | with the gate open, the reading of every non-empty packet is handled |
| Controller.AcceptedInOrder | ns-3.27/src/applications/model/udp-client.cc:408-416 | packets are handled in arrival order: the readings of a batch are those of its first part followed by those of the rest |
| Controller.SendsNeverExceedCount | ns-3.27/src/applications/model/udp-client.cc:520-538 | with a limit, a chain of sends never passes it; it reaches it exactly once enough sends succeed, and otherwise counts the successes |
| Controller.LossVariable | ns-3.27/src/applications/model/udp-client.cc:288-294 | builds the loss input: [0, 100000] with three sets |
| Controller.DelayVariable | ns-3.27/src/applications/model/udp-client.cc:289-299 | builds the delay input: [0, 5000000] us with four sets |
| Controller.AddLongDelays | ns-3.27/src/applications/model/udp-client.cc:298-299 | adds the two longest delay sets |
| Controller.IntervalVariable | ns-3.27/src/applications/model/udp-client.cc:290-305 | builds the output: [10, 1000000] us with five sets in that order |
| Controller.AddSlowerRates | ns-3.27/src/applications/model/udp-client.cc:303-305 | adds the three slower rate sets, in order |
| Controller.AddSlowRates | ns-3.27/src/applications/model/udp-client.cc:304-305 | adds the two slowest rate sets, in order |
| Controller.AddReferenceRules | ns-3.27/src/applications/model/udp-client.cc:309-320 | appends the twelve rules in the constructor's order |
| Controller.UdpClient.constructor | ns-3.27/src/applications/model/udp-client.cc:280-321 | the client holds an engine wired to the constructor's tables, has sent nothing and is not stopped |
| Controller.UdpClient.AdjustRate | ns-3.27/src/applications/model/udp-client.cc:450-480 | the interval becomes the engine's output for the reading |
| Controller.UdpClient.HandlePacket | ns-3.27/src/applications/model/udp-client.cc:420-448 | the new state is one `Step`: `delay_min` takes the previous delay exactly when it is smaller or the minimum is still 0; the interval is recomputed only when fuzzy control is enabled; the reading becomes the previous one |
| Controller.UdpClient.HandleRead | ns-3.27/src/applications/model/udp-client.cc:403-417 | the new state is the old one fed with exactly the accepted readings, in order |
| Controller.UdpClient.Receive | ns-3.27/src/applications/model/udp-client.cc:409-415 | one pass of the loop: an empty packet, a stopped client or an exhausted count leaves the state as it was; otherwise the packet's reading is handled with one `Step` |
| Controller.UdpClient.Send | ns-3.27/src/applications/model/udp-client.cc:500-539 | the counter moves (mod 2^32) only on success; another send is scheduled exactly when `count == 0 \|\| sent < count` |
| Controller.UdpClient.Stop | ns-3.27/src/applications/model/udp-client.cc:492-498 | the client is stopped |

## Left out

- Sockets, binding, connecting and address dispatch (`StartApplication`), `RecvFrom`, and the `SeqTsHeader` wire format.
  - `HandlePacket` takes the drop count and the delay directly.
  - `HandleRead` takes the received packets as a sequence of (size, drops, delay).
  - `Send` takes the socket's verdict as a boolean.
- The packet payload and `m_size` are not modelled.
- Simulator scheduling and cancelling are not modelled. `Send` returns whether the next send is scheduled, and `Stop` only sets `stopped`.
- Trace sources, `NS_LOG_*`, `std::cout` output and `GetTypeId` attribute registration are scaffolding with no effect on the state.
- `SetRemote`, `DoDispose` and the destructor are not modelled.
- The `#if 0` debug print in `eval` and the `#else` branch of `adjust_rate` are not compiled, so they are not modelled.
- IEEE-754 arithmetic is modelled with exact reals. The only IEEE case modelled is division by a zero mass, in `Finish`.
  - Rounding in the centroid sums is not modelled.
  - Rounding in `Seconds(interval)` is not modelled.
- The 32-bit set breakpoints and the `uint32_t` drop count are unbounded integers. The tables are far from the 32-bit range.
- `m_sent` and `m_count` are modelled as 32-bit: `Send` wraps modulo 2^32.
- `operator[]` on an unknown name is modelled as a read of the default value (a zero triangle, or 0.0), without inserting it.
  - In `udp-client.cc`, `sets[set]` (line 70) inserts the zero triangle. A later `add_set` of that name is then ignored, because `insert` (line 58) does not overwrite.
  - In the model, `FuzzyVar.Activation` inserts nothing, so a later `AddSet` does register the triangle.
  - `UdpClient` cannot reach this case: its constructor adds every set before the first evaluation, and every rule names a defined set (`ReferenceRulesDefined`).
- `get_sets` returns the names in insertion order. `std::map` returns them in key order. The aggregate is a maximum, so the result does not depend on the order (`SampleIsMaximum`).
- The falling-branch division by zero (a set with b == c, evaluated at b) is excluded by a precondition (`DividesByZero`). The constructor's tables never reach it (`ReferenceWellConfigured`).
- `udp-client.h` is not part of this model.
  - The field declarations are read as maps keyed by name, and as counters and reals.
  - The starting values of `drops_old`, `delay_old`, `delay_min` and `m_interval` are constructor parameters.
  - `m_count` and `enable_fuzzy` come from attributes, so they are also parameters.
- `delay_tolerance` is named in a comment only and is never used.
- `get_limit_min`/`get_limit_max` are read as the `lo`/`hi` fields.
- The concrete output of the constructor's tables is not computed for any given reading, because the centroid scan has about 10^6 points. The bounds (`ReferenceRateRange`) and the loss gaps (`LossGap`) are proved instead.
- `ns-3.27/scratch/fuzzy.cc` (topology, mobility, tracing) is not part of this model.

## Findings

| source | as written | input that shows it | evidently intended | confidence | as-written member | corrected member |
|---|---|---|---|---|---|---|
| ns-3.27/src/applications/model/udp-client.cc:203-216 | `double weight;` is never initialised, and `weight += u*i` adds to whatever the storage held | 1000 drops with the constructor's tables: no rule fires, the mass is 0, and any positive stale `weight` makes weight/0 = +inf, so the interval is 1 s; a sum started at 0 gives 10 us | the weighted sum starts at 0, like `a` | not executed | Controller.StaleWeightAtLossGap (with Inference.UninitialisedWeightMatters on Inference.EvalFromWeight) | Inference.EvalSpec, computed by FuzzyEngine.Fuzzy.Eval |
