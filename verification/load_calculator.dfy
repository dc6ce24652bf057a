/**
 * The load calculation of `xrmU30ScalPlugin_CalcPercent`: every SCALER
 * resource is one session whose pixel rate, normalised against the device
 * capacity, gives its load; the loads are summed and the sum is reconciled
 * with the caller's job count and declared channel loads.
 *
 * The functions below follow the source's loop resource by resource; in
 * particular the ladder pixel rate is carried from one session to the next
 * (CarriedLadder), as the source never resets it. ComputeLoad is that loop.
 */
module LoadCalculator {
  import opened ScalerTypes

  /** The reply: the reported load and the number of SCALER sessions priced. */
  datatype Reply = Reply(load: int, count: int)

  predicate IsScaler(r: ResourceData) {
    r.kind == "SCALER"
  }

  predicate RateOk(fr: FrameRate) {
    fr.numerator >= 0 && fr.denominator > 0
  }

  /** Frames per second rounded half up: the denominator's half is added before dividing. */
  function RoundedRate(fr: FrameRate): nat
    requires RateOk(fr)
  {
    (fr.numerator + fr.denominator / 2) / fr.denominator
  }

  /**
   * The resolutions on which the source's 32-bit arithmetic is exact:
   * `width * height` is a non-negative `int32_t` (so its unsigned
   * conversion keeps its value), the numerator is not negative, the
   * denominator is positive, and the unsigned 32-bit pixel-rate product
   * does not wrap.
   */
  predicate ResolutionOk(res: Resolution) {
    0 <= res.width * res.height <= INT32_MAX && RateOk(res.frameRate) &&
    res.width * res.height * RoundedRate(res.frameRate) < 0x1_0000_0000
  }

  /** Pixels per second of one plane. */
  function PixelRate(res: Resolution): nat
    requires ResolutionOk(res)
  {
    var area: nat := res.width * res.height;
    area * RoundedRate(res.frameRate)
  }

  /**
   * What a SCALER descriptor must be for the calculation to be defined: at
   * least one output (the source reads the first one unconditionally),
   * exact resolutions for the input and for every output the source reads
   * (all but the last of a ladder of several, the only one otherwise), and
   * a channel load whose product with LOAD_GRANULARITY fits an `int`.
   */
  predicate ScalerOk(r: ResourceData) {
    |r.outRes| >= 1 && ResolutionOk(r.inRes) &&
    (forall i :: 0 <= i < |r.outRes| && (i < |r.outRes| - 1 || i == 0) ==> ResolutionOk(r.outRes[i])) &&
    -2147 <= r.channelLoad <= 2147
  }

  predicate ScalersOk(rs: seq<ResourceData>) {
    forall i :: 0 <= i < |rs| && IsScaler(rs[i]) ==> ScalerOk(rs[i])
  }

  /** Inputs on which the calculation is defined; at most MAX_OUT_ELEMENTS sessions fit the load array. */
  predicate CalcDomain(rs: seq<ResourceData>) {
    ScalersOk(rs) && ScalerCount(rs) <= MAX_OUT_ELEMENTS
  }

  function ScalerCount(rs: seq<ResourceData>): nat
  {
    if rs == [] then 0
    else ScalerCount(rs[..|rs| - 1]) + (if IsScaler(rs[|rs| - 1]) then 1 else 0)
  }

  /** Sum of the pixel rates of `outs`. */
  function SumRates(outs: seq<Resolution>): nat
    requires forall i :: 0 <= i < |outs| ==> ResolutionOk(outs[i])
  {
    if outs == [] then 0 else SumRates(outs[..|outs| - 1]) + PixelRate(outs[|outs| - 1])
  }

  /**
   * What one session adds to the ladder pixel rate: all outputs but the last
   * when there are several, the only output otherwise.
   */
  function LadderContribution(r: ResourceData): nat
    requires ScalerOk(r)
  {
    if |r.outRes| > 1 then SumRates(r.outRes[..|r.outRes| - 1]) else PixelRate(r.outRes[0])
  }

  /**
   * The pixel rate of a session met with ladder pixel rate `ladderBefore`:
   * input plus ladder with several outputs, the ladder alone with one,
   * and never less than the input.
   */
  function SessionPixelRate(ladderBefore: nat, r: ResourceData): (rate: nat)
    requires ScalerOk(r)
    ensures rate >= PixelRate(r.inRes)
    ensures rate >= ladderBefore + LadderContribution(r)
    ensures |r.outRes| > 1 ==> rate == PixelRate(r.inRes) + ladderBefore + LadderContribution(r)
    ensures |r.outRes| == 1 ==> rate == (if PixelRate(r.inRes) > ladderBefore + PixelRate(r.outRes[0])
                                         then PixelRate(r.inRes) else ladderBefore + PixelRate(r.outRes[0]))
  {
    var inPixrate := PixelRate(r.inRes);
    var ladder := ladderBefore + LadderContribution(r);
    var sess := if |r.outRes| > 1 then inPixrate + ladder else ladder;
    if inPixrate > sess then inPixrate else sess
  }

  /**
   * The load of a session of pixel rate `rate`: the whole millionths of the
   * device capacity it uses, and at least 1.
   */
  function SessionLoad(rate: nat): (load: nat)
    ensures load >= 1
    ensures LOAD_GRANULARITY * rate >= U30_SCAL_MAXCAPACITY ==>
      load * U30_SCAL_MAXCAPACITY <= LOAD_GRANULARITY * rate < (load + 1) * U30_SCAL_MAXCAPACITY
    ensures LOAD_GRANULARITY * rate < U30_SCAL_MAXCAPACITY ==> load == 1
  {
    var calcLoad := LOAD_GRANULARITY * rate / U30_SCAL_MAXCAPACITY;
    if calcLoad == 0 then 1 else calcLoad
  }

  /** The ladder pixel rate after the loop has seen `rs`. */
  function CarriedLadder(rs: seq<ResourceData>): nat
    requires ScalersOk(rs)
  {
    if rs == [] then 0
    else
      var last := rs[|rs| - 1];
      CarriedLadder(rs[..|rs| - 1]) + (if IsScaler(last) then LadderContribution(last) else 0)
  }

  /** The loads the loop has stored after seeing `rs`, one per SCALER, each at least 1. */
  function SessionLoads(rs: seq<ResourceData>): (loads: seq<nat>)
    requires ScalersOk(rs)
    ensures |loads| == ScalerCount(rs)
    ensures forall i :: 0 <= i < |loads| ==> loads[i] >= 1
  {
    if rs == [] then []
    else
      var front := rs[..|rs| - 1];
      var last := rs[|rs| - 1];
      SessionLoads(front) +
        (if IsScaler(last) then [SessionLoad(SessionPixelRate(CarriedLadder(front), last))] else [])
  }

  /** The declared channel load of the SCALER resources, in load units. */
  function ChannelAggregate(rs: seq<ResourceData>): int
  {
    if rs == [] then 0
    else
      var last := rs[|rs| - 1];
      ChannelAggregate(rs[..|rs| - 1]) + (if IsScaler(last) then last.channelLoad * LOAD_GRANULARITY else 0)
  }

  function Sum(s: seq<int>): int
  {
    if s == [] then 0 else Sum(s[..|s| - 1]) + s[|s| - 1]
  }

  /** The job count of the last parameter record, -1 when there is none. */
  function JobCountOf(params: seq<ParamsData>): int
  {
    if params == [] then -1 else params[|params| - 1].jobCount
  }

  /**
   * The reported load: the job-count share 1000000 / jobCount when the job
   * count is positive and the share exceeds the computed aggregate;
   * otherwise the declared channel aggregate when it exceeds the computed
   * aggregate and is at most one full device; otherwise the computed
   * aggregate.
   */
  function Reconcile(jobCount: int, channelAggregate: int, aggregate: int): (load: int)
    ensures load >= aggregate
    ensures load == aggregate || load <= LOAD_GRANULARITY
    ensures load == aggregate || load == channelAggregate || load == (if jobCount > 0 then LOAD_GRANULARITY / jobCount else 0)
    ensures jobCount > 0 && LOAD_GRANULARITY / jobCount > aggregate ==> load == LOAD_GRANULARITY / jobCount
    ensures !(jobCount > 0 && LOAD_GRANULARITY / jobCount > aggregate) && aggregate >= 0 ==>
      load == (if aggregate < channelAggregate <= LOAD_GRANULARITY then channelAggregate else aggregate)
  {
    var share := if jobCount > 0 then LOAD_GRANULARITY / jobCount else 0;
    if share > aggregate && share <= LOAD_GRANULARITY then share
    else if channelAggregate > aggregate && channelAggregate <= LOAD_GRANULARITY then channelAggregate
    else aggregate
  }

  /** The reply the source's loop produces for `params` and `rs`. */
  function Calculate(params: seq<ParamsData>, rs: seq<ResourceData>): Reply
    requires ScalersOk(rs)
  {
    Reply(Reconcile(JobCountOf(params), ChannelAggregate(rs), Sum(SessionLoads(rs))), ScalerCount(rs))
  }

  /**
   * One pass of the loop body for a SCALER: adds the session's outputs to
   * the carried ladder pixel rate and returns the clamped session pixel rate.
   */
  method PriceSession(ladderBefore: nat, res: ResourceData) returns (ladderPixrate: nat, sessPixrate: nat)
    requires ScalerOk(res)
    ensures ladderPixrate == ladderBefore + LadderContribution(res)
    ensures sessPixrate == SessionPixelRate(ladderBefore, res)
  {
    ladderPixrate := ladderBefore;
    var inPixrate := PixelRate(res.inRes);
    if |res.outRes| > 1 {
      var i := 0;
      while i < |res.outRes| - 1
        invariant 0 <= i <= |res.outRes| - 1
        invariant ladderPixrate == ladderBefore + SumRates(res.outRes[..i])
      {
        assert res.outRes[..i + 1][..i] == res.outRes[..i];
        ladderPixrate := ladderPixrate + PixelRate(res.outRes[i]);
        i := i + 1;
      }
      sessPixrate := inPixrate + ladderPixrate;
    } else {
      ladderPixrate := ladderPixrate + PixelRate(res.outRes[0]);
      sessPixrate := ladderPixrate;
    }
    sessPixrate := if inPixrate > sessPixrate then inPixrate else sessPixrate;
  }

  /**
   * The calculation loop: prices each SCALER into the next slot of a
   * MAX_OUT_ELEMENTS-slot array, sums the slots, takes the job count of
   * the last parameter record and reconciles.
   */
  method ComputeLoad(params: seq<ParamsData>, resources: seq<ResourceData>) returns (reply: Reply)
    requires CalcDomain(resources)
    ensures reply == Calculate(params, resources)
  {
    var calcPercentage := new int[MAX_OUT_ELEMENTS](_ => 0);
    var idx := 0;
    var ladderPixrate: nat := 0;
    var parseAggregate := 0;
    var k := 0;
    while k < |resources|
      invariant 0 <= k <= |resources|
      invariant ScalersOk(resources[..k])
      invariant idx == ScalerCount(resources[..k]) <= MAX_OUT_ELEMENTS
      invariant ladderPixrate == CarriedLadder(resources[..k])
      invariant parseAggregate == ChannelAggregate(resources[..k])
      invariant calcPercentage[..idx] == SessionLoads(resources[..k])
    {
      var res := resources[k];
      LoopStep(resources, k);
      if res.kind == "SCALER" {
        ScalerCountPrefix(resources, k + 1);
        var sessPixrate;
        ghost var before := calcPercentage[..idx];
        ladderPixrate, sessPixrate := PriceSession(ladderPixrate, res);
        var calcLoad := LOAD_GRANULARITY * sessPixrate / U30_SCAL_MAXCAPACITY;
        calcPercentage[idx] := calcLoad;
        if calcPercentage[idx] == 0 {
          calcPercentage[idx] := 1;
        }
        assert calcPercentage[..idx + 1] == before + [SessionLoad(sessPixrate)];
        idx := idx + 1;
        parseAggregate := parseAggregate + res.channelLoad * LOAD_GRANULARITY;
      }
      k := k + 1;
    }
    assert resources[..k] == resources;

    var calcAggregate := SumSlots(calcPercentage, idx);
    var jobCount := LastJobCount(params);
    reply := Reply(Reconcile(jobCount, parseAggregate, calcAggregate), idx);
  }

  /** The second loop: adds up the first `n` slots of the load array. */
  method SumSlots(a: array<int>, n: nat) returns (total: int)
    requires n <= a.Length
    ensures total == Sum(a[..n])
  {
    total := 0;
    var p := 0;
    while p < n
      invariant 0 <= p <= n
      invariant total == Sum(a[..p])
    {
      assert a[..p + 1][..p] == a[..p];
      total := total + a[p];
      p := p + 1;
    }
  }

  /** The parameter loop: the job count of the last record wins, -1 without records. */
  method LastJobCount(params: seq<ParamsData>) returns (jobCount: int)
    ensures jobCount == JobCountOf(params)
  {
    jobCount := -1;
    var j := 0;
    while j < |params|
      invariant 0 <= j <= |params|
      invariant jobCount == JobCountOf(params[..j])
    {
      jobCount := params[j].jobCount;
      j := j + 1;
    }
    assert params[..j] == params;
  }

  /** How the loop's state functions change when it moves past `rs[k]`. */
  lemma LoopStep(rs: seq<ResourceData>, k: nat)
    requires k < |rs| && ScalersOk(rs)
    ensures ScalersOk(rs[..k]) && ScalersOk(rs[..k + 1])
    ensures IsScaler(rs[k]) ==> ScalerOk(rs[k])
    ensures var front, r := rs[..k], rs[k];
      ScalerCount(rs[..k + 1]) == ScalerCount(front) + (if IsScaler(r) then 1 else 0) &&
      CarriedLadder(rs[..k + 1]) == CarriedLadder(front) + (if IsScaler(r) then LadderContribution(r) else 0) &&
      ChannelAggregate(rs[..k + 1]) == ChannelAggregate(front) + (if IsScaler(r) then r.channelLoad * LOAD_GRANULARITY else 0) &&
      SessionLoads(rs[..k + 1]) == SessionLoads(front) +
        (if IsScaler(r) then [SessionLoad(SessionPixelRate(CarriedLadder(front), r))] else [])
  {
    assert rs[..k + 1][..k] == rs[..k];
  }

  lemma {:induction false} ScalerCountPrefix(rs: seq<ResourceData>, k: nat)
    requires k <= |rs|
    ensures ScalerCount(rs[..k]) <= ScalerCount(rs)
  {
    if k < |rs| {
      ScalerCountPrefix(rs[..|rs| - 1], k);
      assert rs[..|rs| - 1][..k] == rs[..k];
    } else {
      assert rs[..k] == rs;
    }
  }

  /**
   * Rounding half up picks the integer nearest to numerator / denominator,
   * a tie going up: r - 1/2 <= numerator / denominator < r + 1/2.
   */
  lemma RoundedRateNearest(fr: FrameRate)
    requires RateOk(fr)
    ensures 2 * fr.denominator * RoundedRate(fr) - fr.denominator <= 2 * fr.numerator
    ensures 2 * fr.numerator < 2 * fr.denominator * RoundedRate(fr) + fr.denominator
  {
    var n, d := fr.numerator as int, fr.denominator as int;
    var h := d / 2;
    var q := (n + h) / d;
    var m := (n + h) % d;
    assert n + h == d * q + m && 0 <= m < d;
    assert d == 2 * h + d % 2;
    assert 2 * n == 2 * d * q + 2 * m - d + d % 2;
  }

  /** No other integer is that close: the rounding is the nearest-integer function. */
  lemma RoundedRateUnique(fr: FrameRate, k: int)
    requires RateOk(fr)
    requires 2 * fr.denominator * k - fr.denominator <= 2 * fr.numerator < 2 * fr.denominator * k + fr.denominator
    ensures k == RoundedRate(fr)
  {
    var n, d, r := fr.numerator as int, fr.denominator as int, RoundedRate(fr) as int;
    RoundedRateNearest(fr);
    assert d * (k - r) == d * k - d * r && d * (r - k) == d * r - d * k;
    BelowOnce(d, k - r);
    BelowOnce(d, r - k);
  }

  lemma BelowOnce(d: int, x: int)
    requires d > 0 && d * x < d
    ensures x <= 0
  {
  }

  /**
   * The first session meets an empty ladder: with several outputs it is
   * charged the input plus all outputs but the last; with one output,
   * the larger of input and output.
   */
  lemma FirstSessionRate(r: ResourceData)
    requires ScalerOk(r)
    ensures SessionPixelRate(0, r) ==
      if |r.outRes| > 1 then PixelRate(r.inRes) + SumRates(r.outRes[..|r.outRes| - 1])
      else if PixelRate(r.inRes) > PixelRate(r.outRes[0]) then PixelRate(r.inRes)
      else PixelRate(r.outRes[0])
  {
  }

  /** The SCALER resources of `rs`, in order. */
  function Scalers(rs: seq<ResourceData>): (ss: seq<ResourceData>)
    ensures |ss| == ScalerCount(rs)
    ensures forall x :: x in ss ==> x in rs && IsScaler(x)
  {
    if rs == [] then []
    else Scalers(rs[..|rs| - 1]) + (if IsScaler(rs[|rs| - 1]) then [rs[|rs| - 1]] else [])
  }

  /** Dropping every non-SCALER resource changes no part of the calculation. */
  lemma {:induction false} OnlyScalersMatter(rs: seq<ResourceData>)
    requires ScalersOk(rs)
    ensures ScalersOk(Scalers(rs))
    ensures ScalerCount(Scalers(rs)) == ScalerCount(rs)
    ensures CarriedLadder(Scalers(rs)) == CarriedLadder(rs)
    ensures SessionLoads(Scalers(rs)) == SessionLoads(rs)
    ensures ChannelAggregate(Scalers(rs)) == ChannelAggregate(rs)
  {
    if rs != [] {
      var front, last := rs[..|rs| - 1], rs[|rs| - 1];
      OnlyScalersMatter(front);
      var sf := Scalers(front);
      if IsScaler(last) {
        var ss := sf + [last];
        assert Scalers(rs) == ss;
        assert ss[..|ss| - 1] == sf;
      } else {
        assert Scalers(rs) == sf;
      }
    }
  }

  /** Non-SCALER resources change neither the reported load nor the count. */
  lemma NonScalersIgnored(params: seq<ParamsData>, rs: seq<ResourceData>)
    requires ScalersOk(rs)
    ensures ScalersOk(Scalers(rs)) && Calculate(params, Scalers(rs)) == Calculate(params, rs)
  {
    OnlyScalersMatter(rs);
  }

  lemma {:induction false} SumAtLeastLength(s: seq<int>)
    requires forall i :: 0 <= i < |s| ==> s[i] >= 1
    ensures Sum(s) >= |s|
  {
    if s != [] {
      SumAtLeastLength(s[..|s| - 1]);
    }
  }

  /**
   * The count is the number of SCALER sessions; the reported load is at
   * least their summed loads, which is at least one unit per session.
   */
  lemma ReportedCoversSessions(params: seq<ParamsData>, rs: seq<ResourceData>)
    requires ScalersOk(rs)
    ensures Calculate(params, rs).count == ScalerCount(rs) == |Scalers(rs)|
    ensures Calculate(params, rs).load >= Sum(SessionLoads(rs)) >= ScalerCount(rs)
  {
    SumAtLeastLength(SessionLoads(rs));
  }

  /**
   * A request without SCALER sessions reports count 0 and load 0, unless a
   * positive job count makes its share the load.
   */
  lemma {:induction false} NoScalerRequest(params: seq<ParamsData>, rs: seq<ResourceData>)
    requires ScalersOk(rs) && ScalerCount(rs) == 0
    ensures JobCountOf(params) <= 0 ==> Calculate(params, rs) == Reply(0, 0)
    ensures JobCountOf(params) > 0 ==> Calculate(params, rs) == Reply(LOAD_GRANULARITY / JobCountOf(params), 0)
  {
    NoScalerNoChannelLoad(rs);
  }

  lemma {:induction false} NoScalerNoChannelLoad(rs: seq<ResourceData>)
    requires ScalerCount(rs) == 0
    ensures ChannelAggregate(rs) == 0
  {
    if rs != [] {
      NoScalerNoChannelLoad(rs[..|rs| - 1]);
    }
  }

  /** A 3840x2160 plane at 60/1 frames per second. */
  const UHD60: Resolution := Resolution(3840, 2160, FrameRate(60, 1))

  /** A SCALER from UHD60 to the same UHD60. */
  const UHD60_PASS: ResourceData := ResourceData("SCALER", "yuv420p", 0, 0, UHD60, [UHD60])

  /**
   * One SCALER from 3840x2160 at 60/1 to the same: the input pixel rate is
   * 497664000, half the device capacity, so the load is 500000 for 1 session.
   */
  lemma UhdPassLoad()
    ensures CalcDomain([UHD60_PASS]) && PixelRate(UHD60) == 497664000
    ensures Calculate([ParamsData(-1)], [UHD60_PASS]) == Reply(500000, 1)
  {
    UhdRates();
    assert [UHD60_PASS][..0] == [];
    assert ScalerCount([UHD60_PASS]) == 1;
    assert SessionLoads([UHD60_PASS]) == [500000];
    assert Sum([500000]) == 500000 by {
      assert [500000][..0] == [];
    }
    assert ChannelAggregate([UHD60_PASS]) == 0;
    assert JobCountOf([ParamsData(-1)]) == -1;
  }

  /**
   * A SCALER from UHD60 to a ladder of UHD60 and a top rung with frame-rate
   * denominator 0. The source never reads the last rung of a ladder of
   * several, so the request is defined and costs UHD60 in plus UHD60 of
   * ladder: one full device.
   */
  lemma UnreadTopRung()
    ensures var r := ResourceData("SCALER", "yuv420p", 0, 0, UHD60, [UHD60, Resolution(1920, 1080, FrameRate(30, 0))]);
      CalcDomain([r]) && Calculate([ParamsData(-1)], [r]) == Reply(1000000, 1)
  {
    var r := ResourceData("SCALER", "yuv420p", 0, 0, UHD60, [UHD60, Resolution(1920, 1080, FrameRate(30, 0))]);
    UhdRates();
    assert r.outRes[..1] == [UHD60];
    assert SumRates([UHD60]) == 497664000 by {
      assert [UHD60][..0] == [];
    }
    assert LadderContribution(r) == 497664000;
    assert SessionPixelRate(0, r) == 995328000;
    assert [r][..0] == [];
    assert ScalerCount([r]) == 1;
    assert SessionLoads([r]) == [1000000];
    assert Sum([1000000]) == 1000000 by {
      assert [1000000][..0] == [];
    }
    assert ChannelAggregate([r]) == 0;
  }

  /** The pixel rates and loads of UHD60_PASS met with an empty ladder and with its own ladder. */
  lemma UhdRates()
    ensures ScalerOk(UHD60_PASS) && PixelRate(UHD60) == 497664000
    ensures SessionPixelRate(0, UHD60_PASS) == 497664000
    ensures SessionPixelRate(497664000, UHD60_PASS) == 995328000
    ensures SessionLoad(497664000) == 500000 && SessionLoad(995328000) == 1000000
  {
    assert RoundedRate(FrameRate(60, 1)) == 60;
    assert PixelRate(UHD60) == 497664000;
    assert LadderContribution(UHD60_PASS) == 497664000;
  }
}
