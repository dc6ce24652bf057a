/**
 * The ladder pixel rate of the calculation loop is never reset between
 * SCALER sessions, so each session is also charged the ladders of the
 * sessions before it. This module defines the per-session loads with the
 * ladder reset for every session, proves what that definition promises
 * (a request's loads are the loads of its parts), and relates it to the
 * loop as written: equal when there is at most one session, never larger,
 * and different for two identical sessions.
 */
module LadderFinding {
  import opened ScalerTypes
  import opened LoadCalculator

  /** Session loads with the ladder reset for every session. */
  function IndependentLoads(rs: seq<ResourceData>): (loads: seq<nat>)
    requires ScalersOk(rs)
    ensures |loads| == ScalerCount(rs)
    ensures forall i :: 0 <= i < |loads| ==> loads[i] >= 1
  {
    if rs == [] then []
    else
      var last := rs[|rs| - 1];
      IndependentLoads(rs[..|rs| - 1]) + (if IsScaler(last) then [SessionLoad(SessionPixelRate(0, last))] else [])
  }

  /** The reply with the ladder reset for every session. */
  function CorrectedCalculate(params: seq<ParamsData>, rs: seq<ResourceData>): Reply
    requires ScalersOk(rs)
  {
    Reply(Reconcile(JobCountOf(params), ChannelAggregate(rs), Sum(IndependentLoads(rs))), ScalerCount(rs))
  }

  /** With the reset, the loads of a request are the loads of its two halves, in order. */
  lemma {:induction false} IndependentLoadsAppend(a: seq<ResourceData>, b: seq<ResourceData>)
    requires ScalersOk(a) && ScalersOk(b)
    ensures ScalersOk(a + b)
    ensures IndependentLoads(a + b) == IndependentLoads(a) + IndependentLoads(b)
  {
    if b != [] {
      var front := b[..|b| - 1];
      IndependentLoadsAppend(a, front);
      assert (a + b)[..|a + b| - 1] == a + front;
    } else {
      assert a + b == a;
    }
  }

  lemma SumAppend(s: seq<int>, t: seq<int>)
    ensures Sum(s + t) == Sum(s) + Sum(t)
  {
    if t != [] {
      assert (s + t)[..|s + t| - 1] == s + t[..|t| - 1];
      SumAppend(s, t[..|t| - 1]);
    } else {
      assert s + t == s;
    }
  }

  /** With the reset, the summed load of a request is the sum over its parts. */
  lemma AggregateAdditive(a: seq<ResourceData>, b: seq<ResourceData>)
    requires ScalersOk(a) && ScalersOk(b)
    ensures ScalersOk(a + b)
    ensures Sum(IndependentLoads(a + b)) == Sum(IndependentLoads(a)) + Sum(IndependentLoads(b))
  {
    IndependentLoadsAppend(a, b);
    SumAppend(IndependentLoads(a), IndependentLoads(b));
  }

  lemma {:induction false} NoScalerNoLadder(rs: seq<ResourceData>)
    requires ScalersOk(rs) && ScalerCount(rs) == 0
    ensures CarriedLadder(rs) == 0
  {
    if rs != [] {
      NoScalerNoLadder(rs[..|rs| - 1]);
    }
  }

  /** As written and corrected agree on requests with at most one SCALER session. */
  lemma {:induction false} AgreeOnSingleSession(params: seq<ParamsData>, rs: seq<ResourceData>)
    requires ScalersOk(rs) && ScalerCount(rs) <= 1
    ensures SessionLoads(rs) == IndependentLoads(rs)
    ensures Calculate(params, rs) == CorrectedCalculate(params, rs)
  {
    if rs != [] {
      var front := rs[..|rs| - 1];
      AgreeOnSingleSession(params, front);
      if IsScaler(rs[|rs| - 1]) {
        NoScalerNoLadder(front);
      }
    }
  }

  lemma SessionLoadMonotone(x: nat, y: nat)
    requires x <= y
    ensures SessionLoad(x) <= SessionLoad(y)
  {
    assert LOAD_GRANULARITY * x <= LOAD_GRANULARITY * y;
  }

  /** The carried ladder never makes a session cheaper than it is on its own. */
  lemma {:induction false} CarriedNotBelowIndependent(rs: seq<ResourceData>)
    requires ScalersOk(rs)
    ensures forall i :: 0 <= i < ScalerCount(rs) ==> SessionLoads(rs)[i] >= IndependentLoads(rs)[i]
  {
    if rs != [] {
      var front, last := rs[..|rs| - 1], rs[|rs| - 1];
      CarriedNotBelowIndependent(front);
      if IsScaler(last) {
        SessionLoadMonotone(SessionPixelRate(0, last), SessionPixelRate(CarriedLadder(front), last));
      }
    }
  }

  /**
   * Two identical sessions, each half a device on its own: as written the
   * second is charged the first's ladder too and the request reports
   * 1500000 for 2 sessions; with the reset it reports 1000000.
   */
  lemma TwoIdenticalSessions()
    ensures ScalersOk([UHD60_PASS, UHD60_PASS])
    ensures Calculate([ParamsData(-1)], [UHD60_PASS, UHD60_PASS]) == Reply(1500000, 2)
    ensures CorrectedCalculate([ParamsData(-1)], [UHD60_PASS, UHD60_PASS]) == Reply(1000000, 2)
  {
    var rs := [UHD60_PASS, UHD60_PASS];
    TwoSessionsCounts(rs);
    TwoSessionsAsWritten(rs);
    TwoSessionsCorrected(rs);
    assert Sum([500000, 1000000]) == 1500000 by {
      assert [500000, 1000000][..1] == [500000] && [500000][..0] == [];
    }
    assert Sum([500000, 500000]) == 1000000 by {
      assert [500000, 500000][..1] == [500000] && [500000][..0] == [];
    }
    assert JobCountOf([ParamsData(-1)]) == -1;
  }

  lemma TwoSessionsCounts(rs: seq<ResourceData>)
    requires rs == [UHD60_PASS, UHD60_PASS]
    ensures ScalersOk(rs) && ScalerCount(rs) == 2 && ChannelAggregate(rs) == 0
  {
    UhdRates();
    assert rs[..1] == [UHD60_PASS] && rs[..1][..0] == [];
    assert ScalerCount(rs[..1]) == 1 && ChannelAggregate(rs[..1]) == 0;
  }

  lemma TwoSessionsAsWritten(rs: seq<ResourceData>)
    requires rs == [UHD60_PASS, UHD60_PASS]
    ensures ScalersOk(rs) && SessionLoads(rs) == [500000, 1000000]
  {
    UhdRates();
    assert rs[..1] == [UHD60_PASS] && rs[..1][..0] == [];
    assert CarriedLadder(rs[..1]) == 497664000;
    assert SessionLoads(rs[..1]) == [500000];
  }

  lemma TwoSessionsCorrected(rs: seq<ResourceData>)
    requires rs == [UHD60_PASS, UHD60_PASS]
    ensures ScalersOk(rs) && IndependentLoads(rs) == [500000, 500000]
  {
    UhdRates();
    assert rs[..1] == [UHD60_PASS] && rs[..1][..0] == [];
    assert IndependentLoads(rs[..1]) == [500000];
  }
}
