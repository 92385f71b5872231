/** Planning the four UDP ports shared with Analog_Bridge. */
module Ports {
  import opened Sequences
  import opened Wrappers

  /** A configured port is a number, or None for "auto". */
  datatype Config = Config(
    host: string, rangeStart: int, rangeEnd: int, iniPath: string,
    usrpRx: Option<int>, usrpTx: Option<int>, tlvRx: Option<int>, tlvTx: Option<int>,
    reservedPorts: set<int>, localBindPort: int, ambeserverPort: int, md380emuPort: int)

  datatype Plan = Plan(host: string, rangeStart: int, rangeEnd: int, usrpRx: int, usrpTx: int, tlvRx: int, tlvTx: int,
                       iniPath: string)
  {
    function Ports(): seq<int> { [usrpRx, usrpTx, tlvRx, tlvTx] }
  }

  datatype Outcome = Planned(plan: Plan, checks: seq<bool>, reused: bool) | PortPlanError

  /** Which UDP ports can be bound, and whether it matters. */
  datatype Sockets = Sockets(available: int -> bool, allowInUse: bool)

  function Reserved(cfg: Config): set<int> {
    cfg.reservedPorts + (if cfg.localBindPort != 0 then {cfg.localBindPort} else {})
      + {cfg.ambeserverPort, cfg.md380emuPort}
  }

  predicate PortOk(port: int) { 1 <= port <= 65535 }

  predicate RangeOk(start: int, end: int) { PortOk(start) && PortOk(end) && start <= end && end - start + 1 >= 4 }

  /** Four ports or more, all of them port numbers. */
  lemma RangeIs(start: int, end: int)
    ensures RangeOk(start, end) <==> start >= 1 && start + 3 <= end && end <= 65535
  {
  }

  predicate Unique(ports: seq<int>) { forall i, j :: 0 <= i < j < |ports| ==> ports[i] != ports[j] }

  /** What _validate_plan accepts. */
  predicate PlanOk(plan: Plan, cfg: Config) {
    && RangeOk(plan.rangeStart, plan.rangeEnd) && Unique(plan.Ports())
    && (forall p :: p in plan.Ports() ==> PortOk(p) && plan.rangeStart <= p <= plan.rangeEnd && p !in Reserved(cfg))
  }

  function Checks(plan: Plan, s: Sockets): seq<bool> {
    [s.available(plan.usrpRx), s.available(plan.usrpTx), s.available(plan.tlvRx), s.available(plan.tlvTx)]
  }

  // ----- choosing ------------------------------------------------------------------------

  /** A port that choose_auto may pick if it is not taken. */
  predicate Eligible(cfg: Config, s: Sockets, port: int) {
    cfg.rangeStart <= port <= cfg.rangeEnd && port !in Reserved(cfg) && (s.available(port) || s.allowInUse)
  }

  /** In the range, for none of the other uses, and bindable unless that does not matter. */
  lemma EligibleIff(cfg: Config, s: Sockets, port: int)
    ensures Eligible(cfg, s, port) <==>
            && cfg.rangeStart <= port <= cfg.rangeEnd
            && port !in cfg.reservedPorts && port != cfg.ambeserverPort && port != cfg.md380emuPort
            && (cfg.localBindPort == 0 || port != cfg.localBindPort)
            && (s.allowInUse || s.available(port))
  {
  }

  /** All of them from `low` up, in ascending order. */
  function EligibleFrom(cfg: Config, s: Sockets, low: int): (r: seq<int>)
    ensures forall i :: 0 <= i < |r| ==> low <= r[i] && Eligible(cfg, s, r[i])
    ensures forall i, j :: 0 <= i < j < |r| ==> r[i] < r[j]
    ensures forall p :: low <= p && Eligible(cfg, s, p) ==> p in r
    decreases cfg.rangeEnd - low
  {
    if low > cfg.rangeEnd then []
    else
      var rest := EligibleFrom(cfg, s, low + 1);
      if Eligible(cfg, s, low) then [low] + rest else rest
  }

  function FirstFree(cfg: Config, s: Sockets, taken: seq<int>, low: int): (r: Option<int>)
    ensures r.Some? ==> low <= r.value && Eligible(cfg, s, r.value) && r.value !in taken
    ensures forall p :: low <= p && (r.Some? ==> p < r.value) && Eligible(cfg, s, p) ==> p in taken
    decreases cfg.rangeEnd - low
  {
    if low > cfg.rangeEnd then None
    else if Eligible(cfg, s, low) && low !in taken then Some(low)
    else FirstFree(cfg, s, taken, low + 1)
  }

  method ChooseAuto(cfg: Config, s: Sockets, taken: seq<int>) returns (port: Option<int>)
    ensures port == FirstFree(cfg, s, taken, cfg.rangeStart)
  {
    var reserved := Reserved(cfg);
    var p := cfg.rangeStart;
    while p <= cfg.rangeEnd
      invariant FirstFree(cfg, s, taken, p) == FirstFree(cfg, s, taken, cfg.rangeStart)
      invariant p >= cfg.rangeStart
      decreases cfg.rangeEnd - p
    {
      if p !in reserved && p !in taken {
        if s.available(p) || s.allowInUse {
          return Some(p);
        }
      }
      p := p + 1;
    }
    port := None;
  }

  /**
   The ports in order, after those `taken`: each configured one as it is, each automatic one the first free at that
   point.
   */
  function Values(cfg: Config, s: Sockets, explicit: seq<Option<int>>, taken: seq<int>): (r: Option<seq<int>>)
    ensures r.Some? ==> |r.value| == |taken| + |explicit| && taken <= r.value
    decreases |explicit|
  {
    if explicit == [] then Some(taken)
    else
      var first := if explicit[0].None? then FirstFree(cfg, s, taken, cfg.rangeStart)
                   else if PortOk(explicit[0].value) then explicit[0] else None;
      if first.None? then None else Values(cfg, s, explicit[1..], taken + [first.value])
  }

  function Explicit(cfg: Config): seq<Option<int>> { [cfg.usrpRx, cfg.usrpTx, cfg.tlvRx, cfg.tlvTx] }

  predicate AnyAuto(cfg: Config) { cfg.usrpRx.None? || cfg.usrpTx.None? || cfg.tlvRx.None? || cfg.tlvTx.None? }

  predicate AllAuto(cfg: Config) { cfg.usrpRx.None? && cfg.usrpTx.None? && cfg.tlvRx.None? && cfg.tlvTx.None? }

  predicate Matches(plan: Plan, cfg: Config) {
    plan.host == cfg.host && plan.rangeStart == cfg.rangeStart && plan.rangeEnd == cfg.rangeEnd
      && plan.iniPath == cfg.iniPath
  }

  /** Validated, and its ports bindable unless that does not matter. */
  function Accept(plan: Plan, cfg: Config, s: Sockets, reused: bool): Outcome {
    if !PlanOk(plan, cfg) then PortPlanError
    else if (exists c :: c in Checks(plan, s) && !c) && !s.allowInUse then PortPlanError
    else Planned(plan, Checks(plan, s), reused)
  }

  function Fresh(cfg: Config, s: Sockets): Outcome {
    var values := Values(cfg, s, Explicit(cfg), []);
    if values.None? then PortPlanError
    else
      var v := values.value;
      Accept(Plan(cfg.host, cfg.rangeStart, cfg.rangeEnd, v[0], v[1], v[2], v[3], cfg.iniPath), cfg, s, false)
  }

  function Build(cfg: Config, s: Sockets, reuse: bool, state: Option<Plan>): Outcome {
    if !RangeOk(cfg.rangeStart, cfg.rangeEnd) then PortPlanError
    else if reuse && AnyAuto(cfg) && state.Some? && Matches(state.value, cfg) then Accept(state.value, cfg, s, true)
    else Fresh(cfg, s)
  }

  /** build_port_plan, given what the state file holds. */
  method BuildPortPlan(cfg: Config, s: Sockets, reuse: bool, state: Option<Plan>) returns (r: Outcome)
    ensures r == Build(cfg, s, reuse, state)
  {
    if !RangeOk(cfg.rangeStart, cfg.rangeEnd) {
      return PortPlanError;
    }
    if reuse && AnyAuto(cfg) && state.Some? && Matches(state.value, cfg) {
      return Accept(state.value, cfg, s, true);
    }
    hide PlanOk, FirstFree;
    var explicit := Explicit(cfg);
    var taken: seq<int>, planned: seq<int> := [], [];
    for i := 0 to 4
      invariant |planned| == i && taken == planned
      invariant Values(cfg, s, explicit, []) == Values(cfg, s, explicit[i..], planned)
    {
      assert explicit[i..][1..] == explicit[i + 1..];
      var port := explicit[i];
      if port.None? {
        port := ChooseAuto(cfg, s, taken);
        if port.None? {
          return PortPlanError;
        }
      } else if !PortOk(port.value) {
        return PortPlanError;
      }
      planned, taken := planned + [port.value], taken + [port.value];
    }
    r := Accept(Plan(cfg.host, cfg.rangeStart, cfg.rangeEnd, planned[0], planned[1], planned[2], planned[3],
                     cfg.iniPath), cfg, s, false);
  }

  // ----- what every plan is -------------------------------------------------------------------

  /**
   Fresh or reused: four distinct ports in the configured range, none reserved, all bindable unless in-use ports are
   allowed.
   */
  lemma PlansAreSafe(cfg: Config, s: Sockets, reuse: bool, state: Option<Plan>)
    requires Build(cfg, s, reuse, state).Planned?
    ensures var plan := Build(cfg, s, reuse, state).plan;
            && Matches(plan, cfg) && |plan.Ports()| == 4 && Unique(plan.Ports())
            && (forall p :: p in plan.Ports() ==>
                  && 1 <= p <= 65535 && cfg.rangeStart <= p <= cfg.rangeEnd
                  && p !in cfg.reservedPorts && p != cfg.ambeserverPort && p != cfg.md380emuPort
                  && p != cfg.localBindPort
                  && (s.available(p) || s.allowInUse))
  {
    var plan := Build(cfg, s, reuse, state).plan;
    assert Checks(plan, s)[0] in Checks(plan, s) && Checks(plan, s)[1] in Checks(plan, s);
    assert Checks(plan, s)[2] in Checks(plan, s) && Checks(plan, s)[3] in Checks(plan, s);
  }

  /** A state file that may be reused is: its own plan, if that is a safe one, and otherwise none at all. */
  lemma ReuseIff(cfg: Config, s: Sockets, plan: Plan)
    requires cfg.usrpRx.None? || cfg.usrpTx.None? || cfg.tlvRx.None? || cfg.tlvTx.None?
    requires plan.host == cfg.host && plan.rangeStart == cfg.rangeStart && plan.rangeEnd == cfg.rangeEnd
    requires plan.iniPath == cfg.iniPath
    ensures var r := Build(cfg, s, true, Some(plan));
            && (r.Planned? <==> RangeOk(cfg.rangeStart, cfg.rangeEnd) && Unique(plan.Ports())
                                && forall p :: p in plan.Ports() ==> Eligible(cfg, s, p))
            && (r.Planned? ==>
                  r.plan == plan && r.reused && |r.checks| == 4
                  && forall i :: 0 <= i < 4 ==> r.checks[i] == s.available(plan.Ports()[i]))
  {
    if RangeOk(cfg.rangeStart, cfg.rangeEnd) {
      AllBindable(cfg, s, plan.Ports());
      assert PlanOf(cfg, plan.Ports()) == plan;
      hide Unique, Reserved;
    }
  }

  /** Without one, or when every port is configured, reuse makes no difference. */
  lemma NoReuse(cfg: Config, s: Sockets, state: Option<Plan>)
    requires (cfg.usrpRx.Some? && cfg.usrpTx.Some? && cfg.tlvRx.Some? && cfg.tlvTx.Some?) || state.None?
             || state.value.host != cfg.host || state.value.rangeStart != cfg.rangeStart
             || state.value.rangeEnd != cfg.rangeEnd || state.value.iniPath != cfg.iniPath
    ensures Build(cfg, s, true, state) == Build(cfg, s, false, state)
  {
    hide Fresh, Accept;
  }

  /** Planning again from the plan just written changes nothing. */
  lemma ReplanIsStable(cfg: Config, s: Sockets, reuse: bool, state: Option<Plan>)
    requires Build(cfg, s, reuse, state).Planned?
    ensures var first := Build(cfg, s, reuse, state);
            && Build(cfg, s, true, Some(first.plan)).Planned?
            && Build(cfg, s, true, Some(first.plan)).plan == first.plan
            && Build(cfg, s, true, Some(first.plan)).checks == first.checks
  {
    PlansAreSafe(cfg, s, reuse, state);
  }

  lemma {:induction false} FirstFreeIsNext(cfg: Config, s: Sockets, taken: seq<int>, low: int)
    requires low >= cfg.rangeStart
    requires var all := EligibleFrom(cfg, s, cfg.rangeStart);
             && |taken| <= |all| && taken == all[..|taken|]
             && forall p :: cfg.rangeStart <= p < low && Eligible(cfg, s, p) ==> p in taken
    ensures var all := EligibleFrom(cfg, s, cfg.rangeStart);
            FirstFree(cfg, s, taken, low) == if |taken| == |all| then None else Some(all[|taken|])
    decreases cfg.rangeEnd - low
  {
    hide EligibleFrom;
    var all, k := EligibleFrom(cfg, s, cfg.rangeStart), |taken|;
    assert k < |all| ==> all[k] in all && all[k] !in all[..k];
    if low <= cfg.rangeEnd {
      if Eligible(cfg, s, low) && low !in taken {
        assert low in all;
      } else {
        FirstFreeIsNext(cfg, s, taken, low + 1);
      }
    }
  }

  lemma {:induction false} NextValues(cfg: Config, s: Sockets, explicit: seq<Option<int>>, k: nat)
    requires (forall i :: 0 <= i < |explicit| ==> explicit[i].None?) && k <= |EligibleFrom(cfg, s, cfg.rangeStart)|
    ensures var all := EligibleFrom(cfg, s, cfg.rangeStart);
            Values(cfg, s, explicit, all[..k]) == if k + |explicit| > |all| then None else Some(all[..k + |explicit|])
    decreases |explicit|
  {
    hide FirstFree, EligibleFrom;
    var all := EligibleFrom(cfg, s, cfg.rangeStart);
    if explicit != [] {
      FirstFreeIsNext(cfg, s, all[..k], cfg.rangeStart);
      if k < |all| {
        assert all[..k + 1] == all[..k] + [all[k]];
        NextValues(cfg, s, explicit[1..], k + 1);
      }
    }
  }

  /** Four eligible ports in ascending order are always accepted. */
  lemma {:induction false} EligiblePlan(cfg: Config, s: Sockets, all: seq<int>)
    requires RangeOk(cfg.rangeStart, cfg.rangeEnd) && |all| >= 4 && all == EligibleFrom(cfg, s, cfg.rangeStart)
    ensures var plan := Plan(cfg.host, cfg.rangeStart, cfg.rangeEnd, all[0], all[1], all[2], all[3], cfg.iniPath);
            plan.Ports() == all[..4] && Accept(plan, cfg, s, false).Planned?
  {
    hide EligibleFrom;
    var plan := Plan(cfg.host, cfg.rangeStart, cfg.rangeEnd, all[0], all[1], all[2], all[3], cfg.iniPath);
    assert plan.Ports() == all[..4];
    assert forall c :: c in Checks(plan, s) && !c ==> s.allowInUse;
  }

  /**
   With every port automatic and nothing reused, planning succeeds exactly when four ports are eligible, and takes
   the four smallest.
   */
  lemma {:induction false} AutoPlan(cfg: Config, s: Sockets, state: Option<Plan>)
    requires AllAuto(cfg)
    ensures var all, r := EligibleFrom(cfg, s, cfg.rangeStart), Build(cfg, s, false, state);
            && (r.Planned? <==> RangeOk(cfg.rangeStart, cfg.rangeEnd) && |all| >= 4)
            && (r.Planned? ==> r.plan.Ports() == all[..4])
  {
    hide EligibleFrom, FirstFree, Values, Accept;
    var all := EligibleFrom(cfg, s, cfg.rangeStart);
    assert all[..0] == [];
    NextValues(cfg, s, Explicit(cfg), 0);
    if RangeOk(cfg.rangeStart, cfg.rangeEnd) && |all| >= 4 {
      EligiblePlan(cfg, s, all);
      AcceptedAsIs(Plan(cfg.host, cfg.rangeStart, cfg.rangeEnd, all[0], all[1], all[2], all[3], cfg.iniPath), cfg, s);
    }
  }

  lemma AcceptedAsIs(plan: Plan, cfg: Config, s: Sockets)
    requires Accept(plan, cfg, s, false).Planned?
    ensures Accept(plan, cfg, s, false).plan == plan
  {
  }

  // ----- any mix of automatic and configured ports ------------------------------------------------

  /** The configured ports among some slots. */
  function Fixed(slots: seq<Option<int>>): seq<int> {
    if slots == [] then []
    else Fixed(slots[..|slots| - 1]) + if slots[|slots| - 1].Some? then [slots[|slots| - 1].value] else []
  }

  function Autos(slots: seq<Option<int>>): nat {
    if slots == [] then 0 else Autos(slots[..|slots| - 1]) + if slots[|slots| - 1].None? then 1 else 0
  }

  function Leave(all: seq<int>, out: seq<int>): (r: seq<int>)
    ensures forall x :: x in r <==> x in all && x !in out
  {
    if all == [] then []
    else Leave(all[..|all| - 1], out) + if all[|all| - 1] in out then [] else [all[|all| - 1]]
  }

  /**
   What an automatic slot gets: with `k` automatic slots before it, eligible port number `k` not configured before
   it.
   */
  function Picked(all: seq<int>, before: seq<Option<int>>): Option<int> {
    var free := Leave(all, Fixed(before));
    if Autos(before) < |free| then Some(free[Autos(before)]) else None
  }

  /** Configured ports are eligible and distinct, and none of them is what an earlier automatic slot gets. */
  ghost predicate Compatible(cfg: Config, s: Sockets, all: seq<int>, slots: seq<Option<int>>) {
    && (forall i :: 0 <= i < |slots| && slots[i].Some? ==> Eligible(cfg, s, slots[i].value) && PortOk(slots[i].value))
    && (forall i, j :: 0 <= i < j < |slots| && slots[j].Some? ==>
          slots[j] != if slots[i].Some? then slots[i] else Picked(all, slots[..i]))
  }

  /** `v` fills the slots as the loop does. */
  ghost predicate Fills(cfg: Config, s: Sockets, slots: seq<Option<int>>, v: seq<int>) {
    && |v| == |slots|
    && (forall i :: 0 <= i < |slots| && slots[i].Some? ==> PortOk(v[i]) && v[i] == slots[i].value)
    && (forall i :: 0 <= i < |slots| && slots[i].None? ==> FirstFree(cfg, s, v[..i], cfg.rangeStart) == Some(v[i]))
  }

  function AutoPorts(slots: seq<Option<int>>, v: seq<int>): seq<int>
    requires |v| == |slots|
  {
    if slots == [] then []
    else
      var n := |slots| - 1;
      AutoPorts(slots[..n], v[..n]) + if slots[n].None? then [v[n]] else []
  }

  lemma {:induction false} Split(slots: seq<Option<int>>, v: seq<int>)
    requires |v| == |slots| && forall i :: 0 <= i < |slots| && slots[i].Some? ==> v[i] == slots[i].value
    ensures forall x :: x in v <==> x in Fixed(slots) || x in AutoPorts(slots, v)
    ensures |AutoPorts(slots, v)| == Autos(slots)
  {
    if slots != [] {
      var n := |slots| - 1;
      Split(slots[..n], v[..n]);
      assert v == v[..n] + [v[n]];
    }
  }

  lemma {:induction false} LeaveNothing(all: seq<int>)
    ensures Leave(all, []) == all
  {
    if all != [] { LeaveNothing(all[..|all| - 1]); }
  }

  ghost predicate Ascending(r: seq<int>) { forall i, j :: 0 <= i < j < |r| ==> r[i] < r[j] }

  lemma {:induction false} LeaveAscends(all: seq<int>, out: seq<int>)
    requires Ascending(all)
    ensures Ascending(Leave(all, out))
  {
    if all != [] {
      var n := |all| - 1;
      LeaveAscends(all[..n], out);
      OneAbove(all[..n], Leave(all[..n], out), all[n]);
    }
  }

  lemma {:induction false} OneAbove(all: seq<int>, r: seq<int>, x: int)
    requires Ascending(all + [x]) && Ascending(r) && forall y :: y in r ==> y in all
    ensures Ascending(r + [x]) && Ascending(r + [])
  {
    forall i | 0 <= i < |r| ensures r[i] < x {
      assert r[i] in r;
      var j :| 0 <= j < |all| && all[j] == r[i];
      assert (all + [x])[j] < (all + [x])[|all|];
    }
  }

  /** Leaving out one more port, not among the first `k`, keeps the first `k`. */
  lemma {:induction false} LeaveMore(all: seq<int>, out: seq<int>, c: int, k: nat)
    requires k <= |Leave(all, out)| && c !in Leave(all, out)[..k]
    ensures k <= |Leave(all, out + [c])| && Leave(all, out + [c])[..k] == Leave(all, out)[..k]
  {
    if all != [] {
      var n := |all| - 1;
      var r := Leave(all[..n], out);
      if k <= |r| {
        assert Leave(all, out)[..k] == r[..k];
        LeaveMore(all[..n], out, c, k);
      } else {
        assert Leave(all, out)[..k] == r + [all[n]];
        assert r[..|r|] == r;
        LeaveMore(all[..n], out, c, |r|);
        LeaveSame(all[..n], out, c);
      }
    }
  }

  lemma {:induction false} LeaveSame(all: seq<int>, out: seq<int>, c: int)
    requires c !in Leave(all, out)
    ensures Leave(all, out + [c]) == Leave(all, out)
  {
    if all != [] { LeaveSame(all[..|all| - 1], out, c); }
  }

  lemma {:induction false} LastSlot(slots: seq<Option<int>>, v: seq<int>)
    requires |v| == |slots| > 0
    ensures var n := |slots| - 1;
            && Fixed(slots) == Fixed(slots[..n]) + (if slots[n].Some? then [slots[n].value] else [])
            && Autos(slots) == Autos(slots[..n]) + (if slots[n].None? then 1 else 0)
            && AutoPorts(slots, v) == AutoPorts(slots[..n], v[..n]) + (if slots[n].None? then [v[n]] else [])
  {
  }

  /** As long as no port comes up twice, the automatic slots take the first eligible ports not configured so far. */
  lemma {:induction false} AutosTakeFirst(cfg: Config, s: Sockets, slots: seq<Option<int>>, v: seq<int>)
    requires Fills(cfg, s, slots, v) && Unique(v)
    ensures var free := Leave(EligibleFrom(cfg, s, cfg.rangeStart), Fixed(slots));
            Autos(slots) <= |free| && AutoPorts(slots, v) == free[..Autos(slots)]
  {
    if slots != [] {
      var n := |slots| - 1;
      var before, w := slots[..n], v[..n];
      FillsPrefix(cfg, s, slots, v, n);
      LastIsNew(v);
      LastSlot(slots, v);
      AutosTakeFirst(cfg, s, before, w);
      Split(before, w);
      hide FirstFree, EligibleFrom, Unique, Leave, PortOk, Fixed, Autos, AutoPorts;
      var all := EligibleFrom(cfg, s, cfg.rangeStart);
      var free, k := Leave(all, Fixed(before)), Autos(before);
      if slots[n].Some? {
        LeaveMore(all, Fixed(before), v[n], k);
        PlusNothing(AutoPorts(before, w));
      } else {
        FirstFreeIsPicked(cfg, s, before, w);
        PlusNothing(Fixed(before));
        if k < |free| { TakeMore(free, k); }
      }
    }
  }

  lemma PlusNothing(a: seq<int>)
    ensures a + [] == a
  {
  }

  lemma LastIsNew(v: seq<int>)
    requires Unique(v) && v != []
    ensures Unique(v[..|v| - 1]) && v[|v| - 1] !in v[..|v| - 1]
  {
  }

  lemma {:induction false} FillsPrefix(cfg: Config, s: Sockets, slots: seq<Option<int>>, v: seq<int>, n: nat)
    requires Fills(cfg, s, slots, v) && n <= |slots|
    ensures Fills(cfg, s, slots[..n], v[..n])
    ensures n < |slots| && slots[n].None? ==> FirstFree(cfg, s, v[..n], cfg.rangeStart) == Some(v[n])
  {
    hide FirstFree, PortOk;
    forall i | 0 <= i < n && slots[..n][i].None?
      ensures FirstFree(cfg, s, v[..n][..i], cfg.rangeStart) == Some(v[..n][i])
    {
      assert v[..n][..i] == v[..i] && slots[i].None?;
    }
  }

  lemma {:induction false} FirstFreeIsPicked(cfg: Config, s: Sockets, slots: seq<Option<int>>, v: seq<int>)
    requires forall i :: 0 <= i < |slots| && slots[i].Some? ==> |v| == |slots| && v[i] == slots[i].value
    requires |v| == |slots|
    requires var free := Leave(EligibleFrom(cfg, s, cfg.rangeStart), Fixed(slots));
             Autos(slots) <= |free| && AutoPorts(slots, v) == free[..Autos(slots)]
    ensures FirstFree(cfg, s, v, cfg.rangeStart) == Picked(EligibleFrom(cfg, s, cfg.rangeStart), slots)
  {
    var all := EligibleFrom(cfg, s, cfg.rangeStart);
    var free, k := Leave(all, Fixed(slots)), Autos(slots);
    hide FirstFree, EligibleFrom, Leave, Fixed, Autos, AutoPorts, Eligible;
    LeaveAscends(all, Fixed(slots));
    Split(slots, v);
    var first := FirstFree(cfg, s, v, cfg.rangeStart);
    if k < |free| {
      assert free[k] in free && free[k] !in free[..k];
      assert first.Some?;
      assert first.value in free;
    } else {
      assert free[..k] == free;
    }
  }

  lemma {:induction false} UniqueSize(v: seq<int>)
    requires Unique(v)
    ensures |set x | x in v| == |v|
  {
    if v != [] {
      var n := |v| - 1;
      LastIsNew(v);
      UniqueSize(v[..n]);
      assert (set x | x in v) == (set x | x in v[..n]) + {v[n]} by { assert v == v[..n] + [v[n]]; }
    }
  }

  lemma {:induction false} SetSize(all: seq<int>)
    ensures |set x | x in all| <= |all|
  {
    if all != [] {
      var n := |all| - 1;
      SetSize(all[..n]);
      assert (set x | x in all) == (set x | x in all[..n]) + {all[n]} by { assert all == all[..n] + [all[n]]; }
    }
  }

  lemma {:induction false} FewerThan(v: seq<int>, all: seq<int>)
    requires Unique(v) && forall x :: x in v ==> x in all
    ensures |v| <= |all|
  {
    UniqueSize(v);
    SetSize(all);
    NoMore(set x | x in v, set x | x in all);
  }

  /** With enough eligible ports, slots that are compatible can be filled with distinct eligible ports. */
  lemma {:induction false} CanFill(cfg: Config, s: Sockets, slots: seq<Option<int>>) returns (v: seq<int>)
    requires var all := EligibleFrom(cfg, s, cfg.rangeStart);
             |slots| <= |all| && Compatible(cfg, s, all, slots)
    ensures Fills(cfg, s, slots, v) && Unique(v)
    ensures forall x :: x in v ==> Eligible(cfg, s, x)
  {
    v := [];
    if slots != [] {
      var all := EligibleFrom(cfg, s, cfg.rangeStart);
      var n := |slots| - 1;
      var before := slots[..n];
      CompatiblePrefix(cfg, s, all, slots, n);
      var w := CanFill(cfg, s, before);
      hide EligibleFrom, FirstFree, Eligible;
      var last: int;
      if slots[n].Some? {
        last := slots[n].value;
        FixedIsNew(cfg, s, slots, w);
      } else {
        var first := FirstFree(cfg, s, w, cfg.rangeStart);
        if first.None? { RoomIsLeft(cfg, s, w); }
        last := first.value;
      }
      v := w + [last];
      FillOneMore(cfg, s, slots, w, last);
    }
  }

  lemma {:induction false} CompatiblePrefix(cfg: Config, s: Sockets, all: seq<int>, slots: seq<Option<int>>, n: nat)
    requires Compatible(cfg, s, all, slots) && n <= |slots|
    ensures Compatible(cfg, s, all, slots[..n])
  {
    hide Picked, Eligible, PortOk;
    assert forall i :: 0 <= i < n ==> slots[..n][..i] == slots[..i];
  }

  /** A compatible configured port is none of the ports before it. */
  lemma {:induction false} FixedIsNew(cfg: Config, s: Sockets, slots: seq<Option<int>>, w: seq<int>)
    requires slots != [] && slots[|slots| - 1].Some? && Fills(cfg, s, slots[..|slots| - 1], w) && Unique(w)
    requires Compatible(cfg, s, EligibleFrom(cfg, s, cfg.rangeStart), slots)
    ensures slots[|slots| - 1].value !in w
  {
    var n, all := |slots| - 1, EligibleFrom(cfg, s, cfg.rangeStart);
    var before := slots[..n];
    forall i | 0 <= i < n ensures w[i] != slots[n].value {
      if before[i].None? {
        PickedIs(cfg, s, before, w, i);
        assert before[..i] == slots[..i];
      }
    }
  }

  /** What the loop gives an automatic slot is what it is said to get. */
  lemma {:induction false} PickedIs(cfg: Config, s: Sockets, slots: seq<Option<int>>, v: seq<int>, i: nat)
    requires Fills(cfg, s, slots, v) && Unique(v) && i < |slots| && slots[i].None?
    ensures Picked(EligibleFrom(cfg, s, cfg.rangeStart), slots[..i]) == Some(v[i])
  {
    FillsPrefix(cfg, s, slots, v, i);
    hide EligibleFrom, FirstFree, Picked, Leave, Fixed, Autos, AutoPorts;
    AutosTakeFirst(cfg, s, slots[..i], v[..i]);
    FirstFreeIsPicked(cfg, s, slots[..i], v[..i]);
  }

  lemma {:induction false} RoomIsLeft(cfg: Config, s: Sockets, w: seq<int>)
    requires |w| < |EligibleFrom(cfg, s, cfg.rangeStart)|
    ensures FirstFree(cfg, s, w, cfg.rangeStart).Some?
  {
    hide FirstFree, EligibleFrom;
    var all := EligibleFrom(cfg, s, cfg.rangeStart);
    if FirstFree(cfg, s, w, cfg.rangeStart).None? {
      forall x | x in all ensures x in w {
      }
      FewerThan(all, w);
    }
  }

  lemma {:induction false} FillOneMore(cfg: Config, s: Sockets, slots: seq<Option<int>>, w: seq<int>, last: int)
    requires slots != [] && Fills(cfg, s, slots[..|slots| - 1], w)
    requires var slot := slots[|slots| - 1];
             if slot.Some? then PortOk(last) && slot.value == last
             else FirstFree(cfg, s, w, cfg.rangeStart) == Some(last)
    ensures Fills(cfg, s, slots, w + [last])
  {
    hide FirstFree, PortOk;
    var v := w + [last];
    forall i | 0 <= i < |slots| && slots[i].None? ensures FirstFree(cfg, s, v[..i], cfg.rangeStart) == Some(v[i]) {
      if i < |w| {
        assert v[..i] == w[..i] && slots[..|slots| - 1][i].None?;
      } else {
        assert v[..i] == w;
      }
    }
  }

  /** Whatever the loop ends with fills the slots. */
  lemma {:induction false} ValuesFill(cfg: Config, s: Sockets, slots: seq<Option<int>>, w: seq<int>)
    requires |w| <= |slots| && Fills(cfg, s, slots[..|w|], w)
    requires Values(cfg, s, slots[|w|..], w).Some?
    ensures Fills(cfg, s, slots, Values(cfg, s, slots[|w|..], w).value)
    decreases |slots| - |w|
  {
    var n := |w|;
    if n == |slots| {
      TakeAll(slots);
    } else {
      var next := slots[..n + 1];
      assert next[..|next| - 1] == slots[..n] && slots[n..][0] == slots[n] && slots[n..][1..] == slots[n + 1..];
      var first := if slots[n].None? then FirstFree(cfg, s, w, cfg.rangeStart) else slots[n];
      hide Fills, FirstFree, PortOk;
      FillOneMore(cfg, s, next, w, first.value);
      ValuesFill(cfg, s, slots, w + [first.value]);
    }
  }

  /** And if the slots can be filled, that is what the loop ends with. */
  lemma {:induction false} FilledIsValues(cfg: Config, s: Sockets, slots: seq<Option<int>>, v: seq<int>, n: nat)
    requires Fills(cfg, s, slots, v) && n <= |slots|
    ensures Values(cfg, s, slots[n..], v[..n]) == Some(v)
    decreases |slots| - n
  {
    if n == |slots| {
      TakeAll(v);
    } else {
      hide FirstFree, PortOk;
      TakeMore(v, n);
      assert slots[n..][0] == slots[n] && slots[n..][1..] == slots[n + 1..];
      FilledIsValues(cfg, s, slots, v, n + 1);
    }
  }

  /** Filled slots of distinct eligible ports are compatible, and there are as many eligible ports. */
  lemma {:induction false} FilledIsCompatible(cfg: Config, s: Sockets, slots: seq<Option<int>>, v: seq<int>)
    requires Fills(cfg, s, slots, v) && Unique(v) && forall x :: x in v ==> Eligible(cfg, s, x)
    ensures var all := EligibleFrom(cfg, s, cfg.rangeStart); |slots| <= |all| && Compatible(cfg, s, all, slots)
  {
    var all := EligibleFrom(cfg, s, cfg.rangeStart);
    FewerThan(v, all) by { assert forall x :: x in v ==> cfg.rangeStart <= x; }
    hide EligibleFrom, FirstFree, Picked, PortOk, Eligible;
    forall i, j | 0 <= i < j < |slots| && slots[j].Some?
      ensures slots[j] != if slots[i].Some? then slots[i] else Picked(all, slots[..i])
    {
      if slots[i].None? { PickedIs(cfg, s, slots, v, i); }
    }
    forall i | 0 <= i < |slots| && slots[i].Some? ensures Eligible(cfg, s, slots[i].value) && PortOk(slots[i].value) {
      assert v[i] in v;
    }
  }

  function PlanOf(cfg: Config, v: seq<int>): Plan
    requires |v| == 4
  {
    Plan(cfg.host, cfg.rangeStart, cfg.rangeEnd, v[0], v[1], v[2], v[3], cfg.iniPath)
  }

  lemma {:induction false} AllBindable(cfg: Config, s: Sockets, v: seq<int>)
    requires |v| == 4
    ensures (exists c :: c in Checks(PlanOf(cfg, v), s) && !c) <==> exists x :: x in v && !s.available(x)
  {
    var checks := Checks(PlanOf(cfg, v), s);
    assert forall i :: 0 <= i < 4 ==> checks[i] == s.available(v[i]);
    if x :| x in v && !s.available(x) {
      var i :| 0 <= i < 4 && v[i] == x;
      assert !checks[i] && checks[i] in checks;
    }
  }

  lemma {:induction false} AcceptedIff(cfg: Config, s: Sockets, v: seq<int>)
    requires RangeOk(cfg.rangeStart, cfg.rangeEnd) && |v| == 4
    ensures PlanOf(cfg, v).Ports() == v
    ensures Accept(PlanOf(cfg, v), cfg, s, false).Planned? <==> Unique(v) && forall x :: x in v ==> Eligible(cfg, s, x)
  {
    var plan := PlanOf(cfg, v);
    assert plan.Ports() == v;
    AllBindable(cfg, s, v);
    hide Unique, Reserved, Checks;
  }

  /**
   Whatever is configured and whatever is automatic, a fresh plan is made exactly if the range is sound, holds four
   eligible ports, and every configured port is eligible, configured only once, and not what an earlier automatic
   slot gets.  It then holds the configured ports and, in each automatic slot, what that slot gets.
   */
  lemma {:induction false} PlannedIff(cfg: Config, s: Sockets, state: Option<Plan>)
    ensures var all, e, r := EligibleFrom(cfg, s, cfg.rangeStart), Explicit(cfg), Build(cfg, s, false, state);
            && (r.Planned? <==> RangeOk(cfg.rangeStart, cfg.rangeEnd) && |all| >= 4 && Compatible(cfg, s, all, e))
            && (r.Planned? ==> forall i :: 0 <= i < 4 ==>
                  Some(r.plan.Ports()[i]) == if e[i].Some? then e[i] else Picked(all, e[..i]))
  {
    hide EligibleFrom, FirstFree, Picked, PortOk, Eligible, RangeOk, Accept, Compatible, Values;
    var all, e, r := EligibleFrom(cfg, s, cfg.rangeStart), Explicit(cfg), Build(cfg, s, false, state);
    if RangeOk(cfg.rangeStart, cfg.rangeEnd) {
      assert e[0..] == e;
      if |all| >= 4 && Compatible(cfg, s, all, e) {
        var v := CanFill(cfg, s, e);
        FilledIsValues(cfg, s, e, v, 0);
        AcceptedIff(cfg, s, v);
      }
      if Values(cfg, s, e, []).Some? {
        var v := Values(cfg, s, e, []).value;
        assert Fills(cfg, s, e[..0], []);
        ValuesFill(cfg, s, e, []);
        AcceptedIff(cfg, s, v);
        if r.Planned? {
          AcceptedAsIs(PlanOf(cfg, v), cfg, s);
          FilledIsCompatible(cfg, s, e, v);
          forall i | 0 <= i < 4 && e[i].None? ensures Picked(all, e[..i]) == Some(v[i]) {
            PickedIs(cfg, s, e, v, i);
          }
        }
      }
    }
  }

  /** So a configured port that an earlier automatic slot gets always defeats planning, whatever else is free. */
  lemma {:induction false} AutoTakesConfigured(cfg: Config, s: Sockets, state: Option<Plan>, i: nat, j: nat)
    requires i < j < 4 && Explicit(cfg)[i].None? && Explicit(cfg)[j].Some?
    requires Explicit(cfg)[j] == Picked(EligibleFrom(cfg, s, cfg.rangeStart), Explicit(cfg)[..i])
    ensures Build(cfg, s, false, state) == PortPlanError
  {
    hide EligibleFrom, Picked, Build;
    PlannedIff(cfg, s, state);
  }

  lemma {:induction false} WholeRange(cfg: Config, s: Sockets, low: int)
    requires low <= cfg.rangeEnd + 1 && forall p :: low <= p <= cfg.rangeEnd ==> Eligible(cfg, s, p)
    ensures |EligibleFrom(cfg, s, low)| == cfg.rangeEnd + 1 - low
    ensures low < cfg.rangeEnd ==> EligibleFrom(cfg, s, low)[1] == low + 1
    decreases cfg.rangeEnd - low
  {
    hide Eligible;
    if low <= cfg.rangeEnd {
      WholeRange(cfg, s, low + 1);
      assert EligibleFrom(cfg, s, low) == [low] + EligibleFrom(cfg, s, low + 1);
      if low < cfg.rangeEnd {
        assert EligibleFrom(cfg, s, low + 1)[0] == low + 1 by {
          assert low + 1 in EligibleFrom(cfg, s, low + 1);
        }
      }
    }
  }

  /** The second of two automatic slots in front gets the second eligible port. */
  lemma SecondPicked(all: seq<int>)
    requires |all| >= 2
    ensures Picked(all, [None]) == Some(all[1])
  {
    var before: seq<Option<int>> := [None];
    assert before[..0] == [];
    LastSlot(before, [0]);
    LeaveNothing(all);
  }

  const EXAMPLE := Config("127.0.0.1", 1, 8, "", None, None, Some(2), None, {}, 0, 2460, 2470)

  lemma ExampleRange(s: Sockets)
    requires forall p :: 1 <= p <= 8 ==> s.available(p)
    ensures |EligibleFrom(EXAMPLE, s, 1)| == 8 && EligibleFrom(EXAMPLE, s, 1)[1] == 2
  {
    forall p | 1 <= p <= 8 ensures Eligible(EXAMPLE, s, p) {
      assert Reserved(EXAMPLE) == {2460, 2470};
    }
    hide EligibleFrom, Eligible, Reserved;
    WholeRange(EXAMPLE, s, 1);
  }

  /** Ports 1 to 8 are all free; the third is configured to be 2, which the second automatic slot gets. */
  lemma TakenExample(s: Sockets, state: Option<Plan>)
    requires forall p :: 1 <= p <= 8 ==> s.available(p)
    ensures |EligibleFrom(EXAMPLE, s, 1)| == 8 && Build(EXAMPLE, s, false, state) == PortPlanError
  {
    hide EligibleFrom, Build, Eligible, Reserved, Picked;
    ExampleRange(s);
    SecondPicked(EligibleFrom(EXAMPLE, s, 1));
    assert Explicit(EXAMPLE)[..1] == [None];
    AutoTakesConfigured(EXAMPLE, s, state, 1, 2);
  }
}
