/**
 * The replica-scaling rule of the Docker Swarm autoscaler (class
 * `DockerAutoscaler`): one decision per tick from a CPU reading, a memory
 * reading and the current replica count, guarded by replica bounds and by
 * cooldowns measured from the last successful scale command.
 *
 * Time, the two metric readings, the `docker service ls` listing and the
 * success of `docker service scale` are inputs; the Prometheus queries, the
 * docker processes, logging and the 30-second sleep are not modelled.
 */
module Autoscaler {
  import opened Wrappers
  import opened PyStr

  // ---------------------------------------------------------------------
  // Configuration
  // ---------------------------------------------------------------------

  /** The fixed configuration set by the constructor. Percentages and seconds are reals. */
  datatype Config = Config(
    serviceName: string,
    minReplicas: int,
    maxReplicas: int,
    cpuThreshold: real,
    memoryThreshold: real,
    scaleUpCooldown: real,
    scaleDownCooldown: real)

  /** The values the autoscaler is constructed with. */
  const Defaults: Config := Config("service-a", 1, 5, 70.0, 80.0, 60.0, 300.0)

  /** The two thresholds are not negative (true of `Defaults`). */
  predicate NonNegativeThresholds(cfg: Config) {
    cfg.cpuThreshold >= 0.0 && cfg.memoryThreshold >= 0.0
  }

  // ---------------------------------------------------------------------
  // The two scaling predicates
  // ---------------------------------------------------------------------

  /**
   * `should_scale_up`: never at or above the replica ceiling, never within the
   * scale-up cooldown of the last successful scale, and otherwise exactly when
   * CPU or memory is strictly above its threshold.
   */
  predicate ShouldScaleUp(cfg: Config, lastScaleTime: real, now: real, cpu: real, memory: real, current: int)
  {
    if current >= cfg.maxReplicas then false
    else if now - lastScaleTime < cfg.scaleUpCooldown then false
    else cpu > cfg.cpuThreshold || memory > cfg.memoryThreshold
  }

  /**
   * `should_scale_down`: never at or below the replica floor, never within the
   * scale-down cooldown, and otherwise exactly when CPU and memory are both
   * strictly below half their thresholds.
   */
  predicate ShouldScaleDown(cfg: Config, lastScaleTime: real, now: real, cpu: real, memory: real, current: int)
  {
    if current <= cfg.minReplicas then false
    else if now - lastScaleTime < cfg.scaleDownCooldown then false
    else cpu < cfg.cpuThreshold * 0.5 && memory < cfg.memoryThreshold * 0.5
  }

  /** Scale-up is refused at or above the ceiling, whatever the readings and the clock. */
  lemma ScaleUpBlockedAtCeiling(cfg: Config, lastScaleTime: real, now: real, cpu: real, memory: real, current: int)
    requires current >= cfg.maxReplicas
    ensures !ShouldScaleUp(cfg, lastScaleTime, now, cpu, memory, current)
  {
  }

  /**
   * Scale-up is refused while less than the scale-up cooldown has elapsed, and
   * is decided by the readings alone once at least that much has (equality
   * included) below the ceiling.
   */
  lemma ScaleUpCooldown(cfg: Config, lastScaleTime: real, now: real, cpu: real, memory: real, current: int)
    ensures now - lastScaleTime < cfg.scaleUpCooldown ==> !ShouldScaleUp(cfg, lastScaleTime, now, cpu, memory, current)
    ensures current < cfg.maxReplicas && now - lastScaleTime >= cfg.scaleUpCooldown ==>
      (ShouldScaleUp(cfg, lastScaleTime, now, cpu, memory, current) <==> cpu > cfg.cpuThreshold || memory > cfg.memoryThreshold)
  {
  }

  /** Scale-down is refused at or below the floor and within the scale-down cooldown. */
  lemma ScaleDownGuards(cfg: Config, lastScaleTime: real, now: real, cpu: real, memory: real, current: int)
    ensures current <= cfg.minReplicas ==> !ShouldScaleDown(cfg, lastScaleTime, now, cpu, memory, current)
    ensures now - lastScaleTime < cfg.scaleDownCooldown ==> !ShouldScaleDown(cfg, lastScaleTime, now, cpu, memory, current)
  {
  }

  /** Past its guards, scale-down needs BOTH readings below half their thresholds. */
  lemma ScaleDownNeedsBothLow(cfg: Config, lastScaleTime: real, now: real, cpu: real, memory: real, current: int)
    requires current > cfg.minReplicas && now - lastScaleTime >= cfg.scaleDownCooldown
    ensures ShouldScaleDown(cfg, lastScaleTime, now, cpu, memory, current) <==>
      cpu < cfg.cpuThreshold * 0.5 && memory < cfg.memoryThreshold * 0.5
  {
  }

  /** With thresholds that are not negative, the two predicates never hold together. */
  lemma ScalingPredicatesExclusive(cfg: Config, lastScaleTime: real, now: real, cpu: real, memory: real, current: int)
    requires NonNegativeThresholds(cfg)
    ensures !(ShouldScaleUp(cfg, lastScaleTime, now, cpu, memory, current) &&
              ShouldScaleDown(cfg, lastScaleTime, now, cpu, memory, current))
  {
  }

  // ---------------------------------------------------------------------
  // The per-tick decision
  // ---------------------------------------------------------------------

  datatype Decision = Hold | ScaleUp(target: int) | ScaleDown(target: int)

  function Min(a: int, b: int): int { if a <= b then a else b }
  function Max(a: int, b: int): int { if a >= b then a else b }

  /**
   * The decision in `run`: scale-up is checked first and scale-down only when
   * scale-up is refused; the target is clamped to the replica bounds. The
   * clamp never binds, because each predicate already demands room to move:
   * every scaling decision moves the count by exactly one, towards the bound
   * it respects, and a count inside the bounds stays inside them.
   */
  function Decide(cfg: Config, lastScaleTime: real, now: real, cpu: real, memory: real, current: int): (d: Decision)
    ensures d.ScaleUp? <==> ShouldScaleUp(cfg, lastScaleTime, now, cpu, memory, current)
    ensures d.ScaleDown? <==>
      !ShouldScaleUp(cfg, lastScaleTime, now, cpu, memory, current) &&
      ShouldScaleDown(cfg, lastScaleTime, now, cpu, memory, current)
    ensures d.ScaleUp? ==> d.target == current + 1 && d.target <= cfg.maxReplicas
    ensures d.ScaleDown? ==> d.target == current - 1 && d.target >= cfg.minReplicas
    ensures !d.Hold? && cfg.minReplicas <= current <= cfg.maxReplicas ==>
      cfg.minReplicas <= d.target <= cfg.maxReplicas
  {
    if ShouldScaleUp(cfg, lastScaleTime, now, cpu, memory, current) then
      ScaleUp(Min(current + 1, cfg.maxReplicas))
    else if ShouldScaleDown(cfg, lastScaleTime, now, cpu, memory, current) then
      ScaleDown(Max(current - 1, cfg.minReplicas))
    else
      Hold
  }

  // ---------------------------------------------------------------------
  // Reading the current replica count (`get_current_replicas`)
  // ---------------------------------------------------------------------

  /**
   * One decoded line of `docker service ls --format json`. A field is `None`
   * when the object has no such key or its value is not a string; reading it
   * then raises.
   */
  datatype ServiceRecord = ServiceRecord(name: Option<string>, replicas: Option<string>)

  /**
   * `int(replicas.split('/')[1])`: the desired count of a `running/desired`
   * field; `None` when the field is missing, has no `/`, or the piece after the
   * first `/` is not an integer.
   */
  function DesiredReplicas(field: Option<string>): Option<int> {
    match field
    case None => None
    case Some(s) =>
      var parts := Split(s, '/');
      if |parts| < 2 then None else ParseInt(parts[1])
  }

  /**
   * The replica count the loop over the listed services finds: the desired
   * count of the first service whose name contains `serviceName`; `None` when
   * no service matches or reading a field raises on the way.
   */
  function FindReplicas(serviceName: string, records: seq<ServiceRecord>): Option<int>
    decreases |records|
  {
    if records == [] then None
    else match records[0].name
      case None => None
      case Some(n) =>
        if Contains(n, serviceName) then DesiredReplicas(records[0].replicas)
        else FindReplicas(serviceName, records[1..])
  }

  /**
   * The value `get_current_replicas` returns for a listing (`None` when docker
   * could not be run or a line is not JSON): the count found, or 1 on any
   * failure.
   */
  function ListedReplicas(serviceName: string, listing: Option<seq<ServiceRecord>>): int {
    match listing
    case None => 1
    case Some(records) => FindReplicas(serviceName, records).GetOr(1)
  }

  /** The first matching service decides, provided every earlier one was readable. */
  lemma {:induction false} FirstMatchDecides(serviceName: string, records: seq<ServiceRecord>, i: nat)
    requires i < |records|
    requires forall j :: 0 <= j < i ==> records[j].name.Some? && !Contains(records[j].name.value, serviceName)
    requires records[i].name.Some? && Contains(records[i].name.value, serviceName)
    ensures FindReplicas(serviceName, records) == DesiredReplicas(records[i].replicas)
    decreases i
  {
    if i > 0 {
      FirstMatchDecides(serviceName, records[1..], i - 1);
    }
  }

  /** With every name readable and none matching, nothing is found. */
  lemma {:induction false} NoMatchFindsNothing(serviceName: string, records: seq<ServiceRecord>)
    requires forall j :: 0 <= j < |records| ==> records[j].name.Some? && !Contains(records[j].name.value, serviceName)
    ensures FindReplicas(serviceName, records) == None
    decreases |records|
  {
    if records != [] {
      NoMatchFindsNothing(serviceName, records[1..]);
    }
  }

  /** An unreadable name before any match stops the search with nothing found. */
  lemma {:induction false} UnreadableNameFindsNothing(serviceName: string, records: seq<ServiceRecord>, i: nat)
    requires i < |records|
    requires forall j :: 0 <= j < i ==> records[j].name.Some? && !Contains(records[j].name.value, serviceName)
    requires records[i].name.None?
    ensures FindReplicas(serviceName, records) == None
    decreases i
  {
    if i > 0 {
      UnreadableNameFindsNothing(serviceName, records[1..], i - 1);
    }
  }

  /** Anything found is the desired count of some listed service whose name matches. */
  lemma {:induction false} FoundComesFromMatch(serviceName: string, records: seq<ServiceRecord>) returns (i: nat)
    requires FindReplicas(serviceName, records).Some?
    ensures i < |records| && records[i].name.Some? && Contains(records[i].name.value, serviceName)
    ensures FindReplicas(serviceName, records) == DesiredReplicas(records[i].replicas)
    decreases |records|
  {
    if Contains(records[0].name.value, serviceName) {
      i := 0;
    } else {
      var k := FoundComesFromMatch(serviceName, records[1..]);
      i := k + 1;
    }
  }

  /** Docker's `running/desired` replicas field yields the desired count. */
  lemma DesiredOfDockerField(running: nat, desired: nat)
    ensures DesiredReplicas(Some(NatToString(running) + "/" + NatToString(desired))) == Some(desired)
  {
    NatToStringDigits(running);
    NatToStringDigits(desired);
    var r := NatToString(running);
    assert '/' !in r by {
      assert forall k :: 0 <= k < |r| ==> IsDigit(r[k]);
    }
    assert '/' !in NatToString(desired) by {
      assert forall k :: 0 <= k < |NatToString(desired)| ==> IsDigit(NatToString(desired)[k]);
    }
    SplitAfterPrefix(r, '/', NatToString(desired));
    SplitNoSeparator(NatToString(desired), '/');
    ParseIntRoundTrip(desired);
  }

  /**
   * `get_current_replicas` as a loop over the listing that returns as soon as
   * a name matches or a field cannot be read.
   */
  method CurrentReplicas(serviceName: string, listing: Option<seq<ServiceRecord>>) returns (n: int)
    ensures n == ListedReplicas(serviceName, listing)
  {
    if listing.None? {
      return 1;
    }
    var records := listing.value;
    var i := 0;
    while i < |records|
      invariant 0 <= i <= |records|
      invariant FindReplicas(serviceName, records) == FindReplicas(serviceName, records[i..])
    {
      var service := records[i];
      if service.name.None? {
        return 1;
      }
      if Contains(service.name.value, serviceName) {
        n := DesiredReplicas(service.replicas).GetOr(1);
        return;
      }
      assert records[i..][1..] == records[i + 1..];
      i := i + 1;
    }
    n := 1;
  }

  // ---------------------------------------------------------------------
  // One tick of `run`, on values
  // ---------------------------------------------------------------------

  /** `get_metric(query) or 0`: a missing reading counts as zero. */
  function MetricOrZero(reading: Option<real>): real {
    reading.GetOr(0.0)
  }

  /**
   * What one tick observes: the clock, the two Prometheus readings (`None`
   * when the query failed or returned nothing), the service listing, and
   * whether `docker service scale` would succeed.
   */
  datatype TickInput = TickInput(
    now: real,
    cpu: Option<real>,
    memory: Option<real>,
    listing: Option<seq<ServiceRecord>>,
    commandOk: bool)

  /** What one tick did: the count it read, its decision, whether a scale succeeded, the new timestamp. */
  datatype TickOutcome = TickOutcome(replicas: int, decision: Decision, scaled: bool, lastScaleTime: real)

  /**
   * One tick of `run` from the timestamp of the last successful scale. A scale
   * is attempted only on a scaling decision, and the timestamp moves to `now`
   * exactly when that attempt succeeds.
   */
  function Step(cfg: Config, lastScaleTime: real, x: TickInput): TickOutcome
  {
    var current := ListedReplicas(cfg.serviceName, x.listing);
    var d := Decide(cfg, lastScaleTime, x.now, MetricOrZero(x.cpu), MetricOrZero(x.memory), current);
    var scaled := !d.Hold? && x.commandOk;
    TickOutcome(current, d, scaled, if scaled then x.now else lastScaleTime)
  }

  /**
   * When the listing cannot be read the count falls back to 1, so a hot
   * service is scaled to 2 replicas whatever it actually runs.
   */
  lemma UnreadableListingTargetsTwo(cfg: Config, lastScaleTime: real, x: TickInput)
    requires cfg == Defaults && x.listing.None?
    requires x.now - lastScaleTime >= cfg.scaleUpCooldown
    requires MetricOrZero(x.cpu) > cfg.cpuThreshold
    ensures Step(cfg, lastScaleTime, x).decision == ScaleUp(2)
  {
  }

  // ---------------------------------------------------------------------
  // A run of ticks
  // ---------------------------------------------------------------------

  /** The timestamp after the first `n` ticks of `xs`, starting from `initial`. */
  function LastAfter(cfg: Config, initial: real, xs: seq<TickInput>, n: nat): real
    requires n <= |xs|
    decreases n
  {
    if n == 0 then initial else Step(cfg, LastAfter(cfg, initial, xs, n - 1), xs[n - 1]).lastScaleTime
  }

  /** The outcome of tick `j` of `xs`. */
  function OutcomeAt(cfg: Config, initial: real, xs: seq<TickInput>, j: nat): TickOutcome
    requires j < |xs|
  {
    Step(cfg, LastAfter(cfg, initial, xs, j), xs[j])
  }

  /** The two cooldowns are not negative (true of `Defaults`). */
  predicate NonNegativeCooldowns(cfg: Config) {
    cfg.scaleUpCooldown >= 0.0 && cfg.scaleDownCooldown >= 0.0
  }

  /**
   * The last scale time never moves back over a run, even when the wall clock
   * steps back between ticks: a scale needs at least a cooldown to have
   * elapsed since it.
   */
  lemma {:induction false} LastAfterMonotone(cfg: Config, initial: real, xs: seq<TickInput>, a: nat, b: nat)
    requires NonNegativeCooldowns(cfg)
    requires a <= b <= |xs|
    ensures LastAfter(cfg, initial, xs, a) <= LastAfter(cfg, initial, xs, b)
    decreases b
  {
    if a < b {
      LastAfterMonotone(cfg, initial, xs, a, b - 1);
    }
  }

  /** Once tick `i` has scaled, the timestamp never falls below that tick's time. */
  lemma LastAfterScaled(cfg: Config, initial: real, xs: seq<TickInput>, i: nat, m: nat)
    requires NonNegativeCooldowns(cfg)
    requires i < m <= |xs|
    requires OutcomeAt(cfg, initial, xs, i).scaled
    ensures LastAfter(cfg, initial, xs, m) >= xs[i].now
  {
    LastAfterMonotone(cfg, initial, xs, i + 1, m);
  }

  /**
   * Between two successful scales of a run, at least the cooldown of the later
   * one has elapsed since the earlier one: the scale-up cooldown before a
   * scale-up, the scale-down cooldown before a scale-down. This holds even when
   * the wall clock steps back between ticks.
   */
  lemma CooldownBetweenScales(cfg: Config, initial: real, xs: seq<TickInput>, i: nat, j: nat)
    requires NonNegativeCooldowns(cfg)
    requires i < j < |xs|
    requires OutcomeAt(cfg, initial, xs, i).scaled && OutcomeAt(cfg, initial, xs, j).scaled
    ensures OutcomeAt(cfg, initial, xs, j).decision.ScaleUp? ==> xs[j].now - xs[i].now >= cfg.scaleUpCooldown
    ensures OutcomeAt(cfg, initial, xs, j).decision.ScaleDown? ==> xs[j].now - xs[i].now >= cfg.scaleDownCooldown
  {
    LastAfterScaled(cfg, initial, xs, i, j);
  }

  /**
   * A run whose clock steps back (1000, 900, 1100) with CPU hot and every
   * command succeeding still scales at its first and last ticks, 100 s apart.
   */
  lemma ClockStepBackStillScales()
    ensures
      var r := Some([ServiceRecord(Some("docker_service-a"), Some("2/2"))]);
      var xs := [TickInput(1000.0, Some(90.0), None, r, true),
                 TickInput(900.0, Some(90.0), None, r, true),
                 TickInput(1100.0, Some(90.0), None, r, true)];
      OutcomeAt(Defaults, 0.0, xs, 0).scaled && !OutcomeAt(Defaults, 0.0, xs, 1).scaled &&
      OutcomeAt(Defaults, 0.0, xs, 2).scaled
  {
    var records := [ServiceRecord(Some("docker_service-a"), Some("2/2"))];
    var r := Some(records);
    var xs := [TickInput(1000.0, Some(90.0), None, r, true),
               TickInput(900.0, Some(90.0), None, r, true),
               TickInput(1100.0, Some(90.0), None, r, true)];
    ContainsAt("docker_service-a", "service-a", 7);
    FirstMatchDecides("service-a", records, 0);
    DesiredOfDockerField(2, 2);
    assert NatToString(2) + "/" + NatToString(2) == "2/2";
    assert ListedReplicas("service-a", r) == 2;
    assert LastAfter(Defaults, 0.0, xs, 1) == 1000.0;
    assert LastAfter(Defaults, 0.0, xs, 2) == 1000.0;
  }

  // ---------------------------------------------------------------------
  // The autoscaler object
  // ---------------------------------------------------------------------

  /**
   * `DockerAutoscaler`: fixed configuration and the one field the source
   * updates, the time of the last successful scale command.
   */
  class DockerAutoscaler {
    const config: Config
    var lastScaleTime: real
    /** The replica count of the last `docker service scale` issued, if any. */
    ghost var lastRequested: Option<int>

    constructor ()
      ensures config == Defaults && lastScaleTime == 0.0 && lastRequested == None
    {
      config := Defaults;
      lastScaleTime := 0.0;
      lastRequested := None;
    }

    /**
     * `scale_service(replicas)`: issues `docker service scale` for `replicas`
     * (whose success is `commandOk`) and records `now` as the last scale time
     * only when it succeeds.
     */
    method ScaleService(replicas: int, now: real, commandOk: bool) returns (ok: bool)
      modifies this
      ensures ok == commandOk
      ensures lastRequested == Some(replicas)
      ensures lastScaleTime == if commandOk then now else old(lastScaleTime)
    {
      lastRequested := Some(replicas);
      if commandOk {
        lastScaleTime := now;
        ok := true;
      } else {
        ok := false;
      }
    }

    /** One iteration of the loop in `run`. */
    method Tick(x: TickInput) returns (o: TickOutcome)
      modifies this
      ensures o == Step(config, old(lastScaleTime), x)
      ensures o.replicas == ListedReplicas(config.serviceName, x.listing)
      ensures o.decision ==
        Decide(config, old(lastScaleTime), x.now, MetricOrZero(x.cpu), MetricOrZero(x.memory), o.replicas)
      ensures o.scaled <==> !o.decision.Hold? && x.commandOk
      ensures lastScaleTime == o.lastScaleTime == if o.scaled then x.now else old(lastScaleTime)
      ensures lastRequested == if o.decision.Hold? then old(lastRequested) else Some(o.decision.target)
    {
      var cpu := MetricOrZero(x.cpu);
      var memory := MetricOrZero(x.memory);
      var current := CurrentReplicas(config.serviceName, x.listing);
      var scaled := false;
      var decision: Decision := Hold;
      if ShouldScaleUp(config, lastScaleTime, x.now, cpu, memory, current) {
        var newReplicas := Min(current + 1, config.maxReplicas);
        decision := ScaleUp(newReplicas);
        scaled := ScaleService(newReplicas, x.now, x.commandOk);
      } else if ShouldScaleDown(config, lastScaleTime, x.now, cpu, memory, current) {
        var newReplicas := Max(current - 1, config.minReplicas);
        decision := ScaleDown(newReplicas);
        scaled := ScaleService(newReplicas, x.now, x.commandOk);
      }
      o := TickOutcome(current, decision, scaled, lastScaleTime);
    }

    /** The loop in `run` over a finite sequence of ticks. */
    method Run(xs: seq<TickInput>) returns (outcomes: seq<TickOutcome>)
      modifies this
      ensures |outcomes| == |xs|
      ensures forall j :: 0 <= j < |xs| ==> outcomes[j] == OutcomeAt(config, old(lastScaleTime), xs, j)
      ensures lastScaleTime == LastAfter(config, old(lastScaleTime), xs, |xs|)
    {
      ghost var initial := lastScaleTime;
      outcomes := [];
      var i := 0;
      while i < |xs|
        invariant 0 <= i <= |xs|
        invariant |outcomes| == i
        invariant forall j :: 0 <= j < i ==> outcomes[j] == OutcomeAt(config, initial, xs, j)
        invariant lastScaleTime == LastAfter(config, initial, xs, i)
      {
        var o := Tick(xs[i]);
        outcomes := outcomes + [o];
        i := i + 1;
      }
    }
  }
}
