/** The rate controller of the UDP client: the reference rule and set tables,
    the state kept between feedback readings, the gate on incoming
    feedback, and the send counter that decides whether another send is
    scheduled. */
module Controller {
  import opened FuzzyLogic
  import opened Inference
  import opened Variables
  import opened FuzzyEngine

  /** `m_sent` and `m_count` are 32-bit unsigned counters. */
  const WORD: nat := 0x1_0000_0000

  /** The loss input: packets dropped in the last period, over [0, 100000]. */
  function LossTable(): Ling
  {
    Ling(0, 100000, map[
      "Pequena perda" := Triangle(-1000, 0, 1000),
      "Média perda" := Triangle(1000, 2000, 3000),
      "Alta perda" := Triangle(3000, 100000, 150000)])
  }

  /** The delay input, in microseconds over [0, 5000000]. */
  function DelayTable(): Ling
  {
    Ling(0, 5000000, map[
      "Pequeno delay" := Triangle(-1000, 35, 1000),
      "Médio delay" := Triangle(1000, 50000, 100000),
      "Médio alto delay" := Triangle(80000, 200000, 350000),
      "Alto delay" := Triangle(300000, 5000000, 6000000)])
  }

  /** The output: the interval between sends, in microseconds over [10, 1000000]. */
  function IntervalTable(): Ling
  {
    Ling(10, 1000000, map[
      "Taxa super alta" := Triangle(-100, 50, 500),
      "Taxa alta" := Triangle(250, 5000, 10000),
      "Taxa média" := Triangle(5000, 100000, 250000),
      "Taxa baixa" := Triangle(200000, 500000, 700000),
      "Taxa super baixa" := Triangle(600000, 800000, 1100000)])
  }

  /** The output sets in the order they are added. */
  function IntervalOrder(): seq<string>
  {
    ["Taxa super alta", "Taxa alta", "Taxa média", "Taxa baixa", "Taxa super baixa"]
  }

  function RuleTable(): seq<Rule>
  {
    [ Rule("Pequena perda", "Pequeno delay", "Taxa super alta"),
      Rule("Pequena perda", "Médio delay", "Taxa alta"),
      Rule("Pequena perda", "Médio alto delay", "Taxa média"),
      Rule("Pequena perda", "Alto delay", "Taxa baixa"),
      Rule("Média perda", "Pequeno delay", "Taxa alta"),
      Rule("Média perda", "Médio delay", "Taxa média"),
      Rule("Média perda", "Médio alto delay", "Taxa baixa"),
      Rule("Média perda", "Alto delay", "Taxa super baixa"),
      Rule("Alta perda", "Pequeno delay", "Taxa média"),
      Rule("Alta perda", "Médio delay", "Taxa baixa"),
      Rule("Alta perda", "Médio alto delay", "Taxa super baixa"),
      Rule("Alta perda", "Alto delay", "Taxa super baixa")]
  }

  /** The engine the client's constructor builds. */
  function ReferenceEngine(): Engine
  {
    Engine(LossTable(), DelayTable(), IntervalTable(), IntervalOrder(), RuleTable())
  }

  /** The reference tables never divide by zero, whatever the readings. */
  lemma ReferenceWellConfigured()
    ensures WellConfigured(ReferenceEngine())
  {
    ReferenceRulesDefined();
    ReferenceOrder();
  }

  /** Every rule names a loss set and a delay set of the tables. */
  lemma ReferenceRulesDefined()
    ensures forall r :: r in RuleTable() ==> r.in1 in LossTable().sets && r.in2 in DelayTable().sets
  {
  }

  /** The output sets are enumerated exactly once each. */
  lemma ReferenceOrder()
    ensures forall s :: s in IntervalTable().sets ==> s in IntervalOrder()
    ensures forall s :: s in IntervalOrder() ==> s in IntervalTable().sets
  {
  }

  /** adjust_rate: the new interval in seconds that engine `e` gives for a
      drop count and a delay in seconds. */
  function Rate(e: Engine, drops: nat, delay: real): (r: real)
    requires WellConfigured(e)
    ensures e.out.lo <= e.out.hi ==> e.out.lo as real / MICROS <= r <= e.out.hi as real / MICROS
  {
    WellConfiguredIsEvaluable(e, drops as real, delay * MICROS);
    EvalSpec(e, drops as real, delay)
  }

  /** With the reference tables the interval lies within [10 us, 1 s]. */
  lemma ReferenceRateRange(drops: nat, delay: real)
    ensures WellConfigured(ReferenceEngine())
    ensures 10.0 / MICROS <= Rate(ReferenceEngine(), drops, delay) <= 1.0
  {
    ReferenceWellConfigured();
  }

  /** At 1000 and at 3000 drops every loss set has degree 0, so no rule fires
      and the interval falls to the bottom of the output universe, 10 us:
      the fastest rate, whatever the delay. */
  lemma LossGap(delay: real)
    ensures WellConfigured(ReferenceEngine())
    ensures Rate(ReferenceEngine(), 1000, delay) == 10.0 / MICROS
    ensures Rate(ReferenceEngine(), 3000, delay) == 10.0 / MICROS
  {
    ReferenceWellConfigured();
    NoLossRuleFires(1000.0, delay);
    NoLossRuleFires(3000.0, delay);
  }

  /** At the loss gaps every rule has strength 0. */
  lemma NoLossRuleFires(x1: real, delay: real)
    requires x1 == 1000.0 || x1 == 3000.0
    ensures Evaluable(ReferenceEngine(), x1, delay * MICROS)
    ensures forall r :: r in ReferenceEngine().rules ==> Strength(ReferenceEngine(), r, x1, delay * MICROS) == 0.0
    ensures EvalSpec(ReferenceEngine(), x1, delay) == 10.0 / MICROS
  {
    var e := ReferenceEngine();
    ReferenceWellConfigured();
    WellConfiguredIsEvaluable(e, x1, delay * MICROS);
    LossSetsSilent(x1);
    forall r | r in e.rules
      ensures Strength(e, r, x1, delay * MICROS) == 0.0
    {
      assert r.in1 in e.in1.sets;
    }
    NoRuleFiresGivesFloor(e, x1, delay);
  }

  /** `eval` as written, at 1000 drops: with any positive value left in the
      uninitialised `weight`, the interval is the slowest one, 1 s, where
      the sum started at 0 gives the fastest, 10 us. */
  lemma StaleWeightAtLossGap(delay: real, w0: real)
    requires w0 > 0.0
    ensures Evaluable(ReferenceEngine(), 1000.0, delay * MICROS)
    ensures EvalFromWeight(ReferenceEngine(), 1000.0, delay, 0.0) == 10.0 / MICROS
    ensures EvalFromWeight(ReferenceEngine(), 1000.0, delay, w0) == 1.0
  {
    NoLossRuleFires(1000.0, delay);
    UninitialisedWeightMatters(ReferenceEngine(), 1000.0, delay, w0);
  }

  /** 1000 and 3000 are the points where two loss sets meet at degree 0. */
  lemma LossSetsSilent(x1: real)
    requires x1 == 1000.0 || x1 == 3000.0
    ensures forall s :: s in ReferenceEngine().in1.sets ==> Degree(ReferenceEngine().in1, s, x1) == 0.0
  {
    var l := LossTable();
    assert Membership(l.lo, l.hi, Triangle(-1000, 0, 1000), x1) == 0.0;
    assert Membership(l.lo, l.hi, Triangle(1000, 2000, 3000), x1) == 0.0;
    assert Membership(l.lo, l.hi, Triangle(3000, 100000, 150000), x1) == 0.0;
  }

  // ---------------------------------------------------------------------
  // Feedback

  /** One feedback reading: drops in the last period and mean delay in seconds. */
  datatype Reading = Reading(drops: nat, delay: real)

  /** The state a feedback reading updates: the previous reading, the
      smallest delay recorded, and the interval between sends in seconds. */
  datatype Feedback = Feedback(dropsOld: nat, delayOld: real, delayMin: real, interval: real)

  /** HandlePacket on one reading, with the client's engine `e`. `delayMin`
      takes the *previous* delay when that is smaller or when nothing has
      been recorded (0); the interval is recomputed only when the fuzzy
      controller is enabled. */
  function Step(e: Engine, enable: bool, st: Feedback, r: Reading): Feedback
    requires WellConfigured(e)
  {
    var delayMin := if st.delayOld < st.delayMin || st.delayMin == 0.0 then st.delayOld else st.delayMin;
    var interval := if enable then Rate(e, r.drops, r.delay) else st.interval;
    Feedback(r.drops, r.delay, delayMin, interval)
  }

  /** The state after handling `rs` in order. */
  function FeedAll(e: Engine, enable: bool, st: Feedback, rs: seq<Reading>): Feedback
    requires WellConfigured(e)
    decreases |rs|
  {
    if rs == [] then st else Step(e, enable, FeedAll(e, enable, st, rs[..|rs| - 1]), rs[|rs| - 1])
  }

  /** After readings with positive delays, `delayMin` is the minimum of its
      starting value and of every delay recorded before the latest one. */
  lemma {:induction false} DelayMinTracksMinimum(e: Engine, enable: bool, st: Feedback, rs: seq<Reading>)
    requires WellConfigured(e)
    requires st.delayMin > 0.0 && st.delayOld > 0.0
    requires forall i :: 0 <= i < |rs| ==> rs[i].delay > 0.0
    ensures FeedAll(e, enable, st, rs).delayMin > 0.0
    ensures FeedAll(e, enable, st, rs).delayMin <= st.delayMin
    ensures rs != [] ==> FeedAll(e, enable, st, rs).delayMin <= st.delayOld
    ensures forall i :: 0 <= i < |rs| - 1 ==> FeedAll(e, enable, st, rs).delayMin <= rs[i].delay
    ensures || FeedAll(e, enable, st, rs).delayMin == st.delayMin
            || (rs != [] && FeedAll(e, enable, st, rs).delayMin == st.delayOld)
            || exists i :: 0 <= i < |rs| - 1 && FeedAll(e, enable, st, rs).delayMin == rs[i].delay
    decreases |rs|
  {
    if rs != [] {
      var prefix := rs[..|rs| - 1];
      DelayMinTracksMinimum(e, enable, st, prefix);
      var before := FeedAll(e, enable, st, prefix);
      LastReading(e, enable, st, prefix);
      var m := FeedAll(e, enable, st, rs).delayMin;
      if m == before.delayOld && prefix != [] {
        assert m == rs[|prefix| - 1].delay;
      }
      if m == before.delayMin && prefix != [] && m != st.delayMin && m != st.delayOld {
        var i :| 0 <= i < |prefix| - 1 && m == prefix[i].delay;
        assert rs[i] == prefix[i];
      }
    }
  }

  /** From the client's first start, before any feedback (`delay_old` and
      `delay_min` both 0): the minimum stays unset through the first reading,
      takes the first delay on the second, and from then on is positive and
      the smallest of the delays recorded before the latest one. */
  lemma {:induction false} DelayMinFromUnset(e: Engine, enable: bool, st: Feedback, rs: seq<Reading>)
    requires WellConfigured(e)
    requires st.delayMin == 0.0 && st.delayOld == 0.0
    requires forall i :: 0 <= i < |rs| ==> rs[i].delay > 0.0
    ensures |rs| <= 1 ==> FeedAll(e, enable, st, rs).delayMin == 0.0
    ensures |rs| >= 2 ==> FeedAll(e, enable, st, rs).delayMin > 0.0
    ensures forall i :: 0 <= i < |rs| - 1 ==> FeedAll(e, enable, st, rs).delayMin <= rs[i].delay
    ensures |rs| >= 2 ==> exists i :: 0 <= i < |rs| - 1 && FeedAll(e, enable, st, rs).delayMin == rs[i].delay
    decreases |rs|
  {
    if rs != [] {
      var prefix := rs[..|rs| - 1];
      assert forall i :: 0 <= i < |prefix| ==> prefix[i] == rs[i];
      DelayMinFromUnset(e, enable, st, prefix);
      LastReading(e, enable, st, prefix);
      var before := FeedAll(e, enable, st, prefix);
      var m := FeedAll(e, enable, st, rs).delayMin;
      if |prefix| >= 2 && m == before.delayMin {
        var i :| 0 <= i < |prefix| - 1 && before.delayMin == prefix[i].delay;
        assert m == rs[i].delay;
      }
      if |prefix| >= 1 && m == before.delayOld {
        assert m == rs[|rs| - 2].delay;
      }
    }
  }

  /** The previous reading is remembered: `dropsOld` and `delayOld` are the latest reading. */
  lemma LastReading(e: Engine, enable: bool, st: Feedback, rs: seq<Reading>)
    requires WellConfigured(e)
    ensures rs == [] ==> FeedAll(e, enable, st, rs) == st
    ensures rs != [] ==> FeedAll(e, enable, st, rs).delayOld == rs[|rs| - 1].delay
    ensures rs != [] ==> FeedAll(e, enable, st, rs).dropsOld == rs[|rs| - 1].drops
  {
  }

  /** With the controller enabled the interval is the rate for the latest
      reading, within the output universe; disabled, it never changes. */
  lemma {:induction false} IntervalFollowsLatestReading(e: Engine, enable: bool, st: Feedback, rs: seq<Reading>)
    requires WellConfigured(e)
    ensures enable && rs != [] ==>
              FeedAll(e, enable, st, rs).interval == Rate(e, rs[|rs| - 1].drops, rs[|rs| - 1].delay)
    ensures enable && rs != [] && e.out.lo <= e.out.hi ==>
              e.out.lo as real / MICROS <= FeedAll(e, enable, st, rs).interval <= e.out.hi as real / MICROS
    ensures !enable ==> FeedAll(e, enable, st, rs).interval == st.interval
    decreases |rs|
  {
    if rs != [] {
      IntervalFollowsLatestReading(e, enable, st, rs[..|rs| - 1]);
    }
  }

  // ---------------------------------------------------------------------
  // Gating and sending

  /** A received packet: its size and the reading its header carries. */
  datatype Packet = Packet(size: nat, drops: nat, delay: real)

  /** Feedback is handled unless the client is stopped or has sent all it
      was asked to (`count` 0 meaning no limit). */
  predicate Open(stopped: bool, count: nat, sent: nat)
  {
    !stopped && !(count != 0 && sent >= count)
  }

  /** The readings HandleRead passes on: those of non-empty packets, and
      none at all when the gate is closed. */
  function Accepted(open: bool, ps: seq<Packet>): seq<Reading>
    decreases |ps|
  {
    if ps == [] then []
    else
      var p := ps[|ps| - 1];
      Accepted(open, ps[..|ps| - 1]) + (if open && p.size > 0 then [Reading(p.drops, p.delay)] else [])
  }

  /** A closed gate passes nothing; an open one passes exactly the non-empty
      packets, in order. */
  lemma {:induction false} AcceptedReadings(open: bool, ps: seq<Packet>)
    ensures !open ==> Accepted(open, ps) == []
    ensures forall r :: r in Accepted(open, ps) ==> exists p :: p in ps && p.size > 0 && r == Reading(p.drops, p.delay)
    ensures open && (forall i :: 0 <= i < |ps| ==> ps[i].size > 0) ==>
              |Accepted(open, ps)| == |ps| &&
              forall i :: 0 <= i < |ps| ==> Accepted(open, ps)[i] == Reading(ps[i].drops, ps[i].delay)
    ensures (forall i :: 0 <= i < |ps| ==> ps[i].size == 0) ==> Accepted(open, ps) == []
    decreases |ps|
  {
    if ps != [] {
      var prefix := ps[..|ps| - 1];
      AcceptedReadings(open, prefix);
      assert forall p :: p in prefix ==> p in ps;
      assert forall i :: 0 <= i < |prefix| ==> prefix[i] == ps[i];
    }
  }

  /** An open gate handles every non-empty packet. */
  lemma {:induction false} AcceptedHandlesEvery(ps: seq<Packet>)
    ensures forall k :: 0 <= k < |ps| && ps[k].size > 0 ==> Reading(ps[k].drops, ps[k].delay) in Accepted(true, ps)
    decreases |ps|
  {
    if ps != [] {
      var prefix := ps[..|ps| - 1];
      AcceptedHandlesEvery(prefix);
      assert forall k :: 0 <= k < |prefix| ==> prefix[k] == ps[k];
    }
  }

  /** Packets are handled in arrival order: the readings of a batch are those
      of its first part followed by those of the rest. */
  lemma {:induction false} AcceptedInOrder(open: bool, ps: seq<Packet>, qs: seq<Packet>)
    ensures Accepted(open, ps + qs) == Accepted(open, ps) + Accepted(open, qs)
    decreases |qs|
  {
    if qs == [] {
      assert ps + qs == ps;
    } else {
      var front := qs[..|qs| - 1];
      AcceptedInOrder(open, ps, front);
      assert (ps + qs)[..|ps + qs| - 1] == ps + front;
      assert (ps + qs)[|ps + qs| - 1] == qs[|qs| - 1];
    }
  }

  /** Reading one more packet extends the accepted readings by that packet's
      reading, if the gate lets it through. */
  lemma AcceptedStep(open: bool, ps: seq<Packet>, k: nat)
    requires k < |ps|
    ensures Accepted(open, ps[..k + 1]) ==
              Accepted(open, ps[..k]) + (if open && ps[k].size > 0 then [Reading(ps[k].drops, ps[k].delay)] else [])
  {
    assert ps[..k + 1][..k] == ps[..k];
  }

  /** Handling one more reading is one more `Step`. */
  lemma FeedAllStep(e: Engine, enable: bool, st: Feedback, rs: seq<Reading>, r: Reading)
    requires WellConfigured(e)
    ensures FeedAll(e, enable, st, rs + [r]) == Step(e, enable, FeedAll(e, enable, st, rs), r)
  {
    assert (rs + [r])[..|rs|] == rs;
  }

  /** The counter after one send attempt: it moves (modulo 2^32) only when the socket accepted the packet. */
  function AfterSend(sent: nat, ok: bool): nat
  {
    if ok then (sent + 1) % WORD else sent
  }

  /** Another send is scheduled while the limit is not reached (`count` 0: never). */
  predicate Reschedules(count: nat, sent: nat)
  {
    count == 0 || sent < count
  }

  /** The counter after a chain of sends, starting with one send and going on
      while each send reschedules the next; `oks` are the socket results. */
  function SendChain(count: nat, sent: nat, oks: seq<bool>): nat
    decreases |oks|
  {
    if oks == [] then sent
    else
      var s := AfterSend(sent, oks[0]);
      if Reschedules(count, s) then SendChain(count, s, oks[1..]) else s
  }

  function Successes(oks: seq<bool>): nat
  {
    if oks == [] then 0 else (if oks[0] then 1 else 0) + Successes(oks[1..])
  }

  /** With a limit, the counter never passes it; and once enough sends have
      succeeded the client has sent exactly `count` packets and stops. */
  lemma {:induction false} SendsNeverExceedCount(count: nat, sent: nat, oks: seq<bool>)
    requires 0 < count < WORD && sent < count
    ensures SendChain(count, sent, oks) <= count
    ensures Successes(oks) >= count - sent ==> SendChain(count, sent, oks) == count
    ensures Successes(oks) < count - sent ==> SendChain(count, sent, oks) == sent + Successes(oks)
    decreases |oks|
  {
    if oks != [] {
      var s := AfterSend(sent, oks[0]);
      assert s <= count;
      if s < count {
        SendsNeverExceedCount(count, s, oks[1..]);
      }
    }
  }

  // ---------------------------------------------------------------------
  // The client

  /** The loss input of the constructor's tables. */
  method LossVariable() returns (v: FuzzyVar)
    ensures fresh(v) && v.Valid() && v.View() == LossTable()
  {
    v := new FuzzyVar("Drops", 0, 100000);
    v.AddSet("Pequena perda", -1000, 0, 1000);
    v.AddSet("Média perda", 1000, 2000, 3000);
    v.AddSet("Alta perda", 3000, 100000, 150000);
  }

  /** The delay input of the constructor's tables, in microseconds. */
  method DelayVariable() returns (v: FuzzyVar)
    ensures fresh(v) && v.Valid() && v.View() == DelayTable()
  {
    v := new FuzzyVar("Delay", 0, 5000000);
    v.AddSet("Pequeno delay", -1000, 35, 1000);
    assert "Médio delay" !in v.sets;
    v.AddSet("Médio delay", 1000, 50000, 100000);
    AddLongDelays(v);
  }

  /** The two longest delay sets, added last. */
  method AddLongDelays(v: FuzzyVar)
    requires v.Valid() && v.lo == 0 && v.hi == 5000000
    requires v.sets == map["Pequeno delay" := Triangle(-1000, 35, 1000), "Médio delay" := Triangle(1000, 50000, 100000)]
    modifies v
    ensures v.Valid() && v.View() == DelayTable()
  {
    assert "Médio alto delay" !in v.sets;
    v.AddSet("Médio alto delay", 80000, 200000, 350000);
    assert "Alto delay" !in v.sets;
    v.AddSet("Alto delay", 300000, 5000000, 6000000);
  }

  /** The output of the constructor's tables, in microseconds. */
  method IntervalVariable() returns (v: FuzzyVarOut)
    ensures fresh(v) && fresh(v.base) && v.Valid()
    ensures v.base.View() == IntervalTable() && v.base.order == IntervalOrder()
  {
    v := new FuzzyVarOut("Interval", 10, 1000000);
    v.AddSet("Taxa super alta", -100, 50, 500);
    assert "Taxa alta" !in v.base.sets;
    v.AddSet("Taxa alta", 250, 5000, 10000);
    AddSlowerRates(v);
  }

  /** The three slower rates, added after the two fastest. */
  method AddSlowerRates(v: FuzzyVarOut)
    requires v.Valid() && v.base.lo == 10 && v.base.hi == 1000000
    requires v.base.sets == map["Taxa super alta" := Triangle(-100, 50, 500), "Taxa alta" := Triangle(250, 5000, 10000)]
    requires v.base.order == ["Taxa super alta", "Taxa alta"]
    modifies v, v.base
    ensures v.Valid()
    ensures v.base.View() == IntervalTable() && v.base.order == IntervalOrder()
  {
    assert "Taxa média" !in v.base.sets;
    v.AddSet("Taxa média", 5000, 100000, 250000);
    AddSlowRates(v);
  }

  /** The two slowest rates, added last. */
  method AddSlowRates(v: FuzzyVarOut)
    requires v.Valid() && v.base.lo == 10 && v.base.hi == 1000000
    requires v.base.sets == map["Taxa super alta" := Triangle(-100, 50, 500), "Taxa alta" := Triangle(250, 5000, 10000),
                                "Taxa média" := Triangle(5000, 100000, 250000)]
    requires v.base.order == ["Taxa super alta", "Taxa alta", "Taxa média"]
    modifies v, v.base
    ensures v.Valid()
    ensures v.base.View() == IntervalTable() && v.base.order == IntervalOrder()
  {
    assert "Taxa baixa" !in v.base.sets;
    v.AddSet("Taxa baixa", 200000, 500000, 700000);
    assert "Taxa super baixa" !in v.base.sets;
    v.AddSet("Taxa super baixa", 600000, 800000, 1100000);
  }

  /** The constructor's rule table, in the order it is added. */
  method AddReferenceRules(f: Fuzzy)
    modifies f`rules
    ensures f.rules == old(f.rules) + RuleTable()
  {
    f.AddRule("Pequena perda", "Pequeno delay", "Taxa super alta");
    f.AddRule("Pequena perda", "Médio delay", "Taxa alta");
    f.AddRule("Pequena perda", "Médio alto delay", "Taxa média");
    f.AddRule("Pequena perda", "Alto delay", "Taxa baixa");
    f.AddRule("Média perda", "Pequeno delay", "Taxa alta");
    f.AddRule("Média perda", "Médio delay", "Taxa média");
    f.AddRule("Média perda", "Médio alto delay", "Taxa baixa");
    f.AddRule("Média perda", "Alto delay", "Taxa super baixa");
    f.AddRule("Alta perda", "Pequeno delay", "Taxa média");
    f.AddRule("Alta perda", "Médio delay", "Taxa baixa");
    f.AddRule("Alta perda", "Médio alto delay", "Taxa super baixa");
    f.AddRule("Alta perda", "Alto delay", "Taxa super baixa");
  }

  class UdpClient {
    const fuzzy: Fuzzy
    /** The configuration `fuzzy` is built with; the constructor builds the reference one. */
    ghost const engine: Engine
    const enableFuzzy: bool
    const count: nat      // m_count
    var sent: nat         // m_sent
    var stopped: bool
    var dropsOld: nat
    var delayOld: real
    var delayMin: real
    var interval: real    // m_interval, in seconds

    ghost predicate Valid()
      reads this`sent, fuzzy, fuzzy.in1, fuzzy.in2, fuzzy.out
      reads if fuzzy.out != null then {fuzzy.out.base} else {}
    {
      && fuzzy.Wired() && fuzzy.out.Valid()
      && fuzzy.Config() == engine && WellConfigured(engine)
      && count < WORD && sent < WORD
    }

    function State(): Feedback
      reads this
    {
      Feedback(dropsOld, delayOld, delayMin, interval)
    }

    /** The constructor builds the reference tables. The feedback fields are
        not set by it; their starting values are parameters here. */
    constructor(count: nat, interval: real, enableFuzzy: bool, dropsOld: nat, delayOld: real, delayMin: real)
      requires count < WORD
      ensures Valid() && fresh(fuzzy) && engine == ReferenceEngine()
      ensures this.count == count && this.enableFuzzy == enableFuzzy
      ensures sent == 0 && !stopped
      ensures State() == Feedback(dropsOld, delayOld, delayMin, interval)
    {
      fuzzy := new Fuzzy();
      engine := ReferenceEngine();
      this.count := count;
      this.enableFuzzy := enableFuzzy;
      sent := 0;
      stopped := false;
      this.dropsOld := dropsOld;
      this.delayOld := delayOld;
      this.delayMin := delayMin;
      this.interval := interval;
      new;
      var in1 := LossVariable();
      var in2 := DelayVariable();
      var out := IntervalVariable();
      fuzzy.SetVars(in1, in2, out);
      AddReferenceRules(fuzzy);
      ReferenceWellConfigured();
    }

    /** adjust_rate: the interval becomes the engine's output for this reading. */
    method AdjustRate(drops: nat, delay: real)
      requires Valid()
      modifies this`interval, fuzzy.out
      ensures Valid()
      ensures interval == Rate(engine, drops, delay)
    {
      WellConfiguredIsEvaluable(engine, drops as real, delay * MICROS);
      interval := fuzzy.Eval(drops as real, delay);
    }

    /** HandlePacket, once the reading is out of the header. */
    method HandlePacket(drops: nat, delay: real)
      requires Valid()
      modifies this`dropsOld, this`delayOld, this`delayMin, this`interval, fuzzy.out
      ensures Valid()
      ensures State() == Step(engine, enableFuzzy, old(State()), Reading(drops, delay))
    {
      if delayOld < delayMin || delayMin == 0.0 {
        delayMin := delayOld;
      }
      if enableFuzzy {
        AdjustRate(drops, delay);
      }
      dropsOld := drops;
      delayOld := delay;
      assert interval == Step(engine, enableFuzzy, old(State()), Reading(drops, delay)).interval;
    }

    /** HandleRead over the packets waiting on the socket. */
    method HandleRead(packets: seq<Packet>)
      requires Valid()
      modifies this`dropsOld, this`delayOld, this`delayMin, this`interval, fuzzy.out
      ensures Valid()
      ensures State() == FeedAll(engine, enableFuzzy, old(State()), Accepted(Open(stopped, count, sent), packets))
    {
      ghost var open := Open(stopped, count, sent);
      ghost var st0 := State();
      var k := 0;
      while k < |packets|
        invariant 0 <= k <= |packets|
        invariant Valid()
        invariant State() == FeedAll(engine, enableFuzzy, st0, Accepted(open, packets[..k]))
      {
        AcceptedStep(open, packets, k);
        Receive(packets[k], st0, Accepted(open, packets[..k]));
        k := k + 1;
      }
      assert packets[..k] == packets;
    }

    /** One pass of HandleRead's loop: a non-empty packet is handled while
        the client is running and has not exhausted its count. */
    method Receive(p: Packet, ghost st0: Feedback, ghost prior: seq<Reading>)
      requires Valid()
      requires State() == FeedAll(engine, enableFuzzy, st0, prior)
      modifies this`dropsOld, this`delayOld, this`delayMin, this`interval, fuzzy.out
      ensures Valid()
      ensures State() == FeedAll(engine, enableFuzzy, st0,
                prior + (if Open(stopped, count, sent) && p.size > 0 then [Reading(p.drops, p.delay)] else []))
    {
      if p.size > 0 && !stopped && !(count != 0 && sent >= count) {
        FeedAllStep(engine, enableFuzzy, st0, prior, Reading(p.drops, p.delay));
        HandlePacket(p.drops, p.delay);
      } else {
        assert prior + [] == prior;
      }
    }

    /** Send, after the socket reports whether it took the packet: the counter
        moves on success only, and the next send is scheduled while the limit
        is not reached. */
    method Send(ok: bool) returns (reschedule: bool)
      requires Valid()
      modifies this`sent
      ensures Valid()
      ensures sent == AfterSend(old(sent), ok)
      ensures reschedule == Reschedules(count, sent)
    {
      if ok {
        sent := (sent + 1) % WORD;
      }
      reschedule := count == 0 || sent < count;
    }

    /** StopApplication: no more feedback is handled. */
    method Stop()
      modifies this`stopped
      ensures stopped
    {
      stopped := true;
    }
  }
}
