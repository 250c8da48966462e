# Docker Swarm autoscaler: replica-scaling rule

This project models the replica-scaling rule of the repository's Docker Swarm
autoscaler, class `DockerAutoscaler` in `docker/swarm/autoscaler.py`, and proves
properties of it in Dafny.

The autoscaler has fixed configuration:

- the service name `service-a`;
- replica bounds 1 to 5;
- a CPU threshold of 70 % and a memory threshold of 80 %;
- a scale-up cooldown of 60 s and a scale-down cooldown of 300 s.

Its only mutable state is the time of the last successful scale command.

It runs ticks in an endless loop and sleeps 30 seconds after each one, so
ticks are at least 30 seconds plus the tick's own duration apart. In a tick it
reads CPU and memory usage from Prometheus and the replica count from
`docker service ls`. It then decides to scale up by one, scale down by one, or
hold. Scale-up is checked first and scale-down only when scale-up is refused.
Only on a scale-up or scale-down decision does it issue `docker service scale`;
on hold nothing is issued. The timestamp moves only when that command
succeeds.

Files:

- `wrappers.dfy` (module `Wrappers`): `Option`.
- `pystr.dfy` (module `PyStr`): the Python string behaviour the autoscaler relies
  on. This is `needle in haystack`, `str.split` with a one-character separator,
  and `int(text)` for base-10 text (surrounding space, tab, line feed,
  vertical tab, form feed or carriage return; a sign; digits with single
  underscores between them).
- `autoscaler.dfy` (module `Autoscaler`): the configuration, the two predicates,
  the per-tick decision, parsing of the service listing, a pure `Step` of one
  tick, and lemmas over runs of ticks. It also holds the class
  `DockerAutoscaler` with `lastScaleTime`, a ghost record of the last count
  requested, and the methods `ScaleService`, `Tick`
  and `Run`. `Tick` and `Run` are proved against `Step`.

Inputs that stand for I/O:

- the clock `now`;
- the two metric readings, an `Option<real>` that is `None` when the query failed;
- the decoded service listing, `None` when docker could not be run or a line
  was not JSON;
- whether the scale command succeeds.

Two consequences of the code are proved and worth knowing:

- The clamp `min(current + 1, max_replicas)` never changes the scale-up target,
  because that branch is only taken with `current < max_replicas`. The
  scale-down clamp is likewise redundant. So every scaling decision moves the
  count by exactly one, even from a count outside the bounds.
- When the listing cannot be read, the replica count falls back to 1. A hot
  service is then scaled to 2 replicas, whatever it actually runs
  (`UnreadableListingTargetsTwo`).

The resilience behaviour of the services belongs to the Resilience4j library.
This covers circuit breaking, retry, bulkheads, rate limiting and time limits.
It is attached through annotations in
`service-a/src/main/java/com/example/a/BClient.java`. The library's state
machines are not in the repository. They are not part of this model.

## Model

| member | source | states |
|---|---|---|
| `PyStr.ContainsAt` | docker/swarm/autoscaler.py:41 | an occurrence of the service name at any offset of a service's name makes the `in` test true |
| `PyStr.ContainsWitness` | docker/swarm/autoscaler.py:41 | conversely, a true `in` test yields an offset where the service name occurs |
| `PyStr.Split` | docker/swarm/autoscaler.py:42 | `split('/')` gives at least one piece and no piece contains the separator |
| `PyStr.JoinSplit` | docker/swarm/autoscaler.py:42 | joining the pieces of a split with the separator gives back the original text |
| `PyStr.SplitJoin` | docker/swarm/autoscaler.py:42 | splitting the join of separator-free pieces gives back exactly those pieces |
| `PyStr.ParseIntRoundTrip` | docker/swarm/autoscaler.py:42 | `int()` reads back every integer written in decimal, negative ones included |
| `PyStr.ParseIntSkipsSpaces` | docker/swarm/autoscaler.py:42 | `int()` gives the same result with any run of whitespace before and after the text as without it |
| `Autoscaler.DesiredOfDockerField` | docker/swarm/autoscaler.py:42 | a `running/desired` replicas field yields the desired count, the part after the `/` |
| `Autoscaler.FirstMatchDecides` | docker/swarm/autoscaler.py:40-42 | the first listed service whose name contains the service name decides the count, when every earlier name was readable |
| `Autoscaler.NoMatchFindsNothing` | docker/swarm/autoscaler.py:40-45 | when no readable name matches, nothing is found, so the count falls back to 1 |
| `Autoscaler.UnreadableNameFindsNothing` | docker/swarm/autoscaler.py:41-45 | a service without a readable name before any match raises, so the count falls back to 1 |
| `Autoscaler.FoundComesFromMatch` | docker/swarm/autoscaler.py:40-42 | any count found is the desired count of a listed service whose name matches |
| `Autoscaler.CurrentReplicas` | docker/swarm/autoscaler.py:35-45 | the loop over the listing returns the count of the first match, or 1 when docker fails, a line or field is unreadable, or nothing matches |
| `Autoscaler.ScaleUpBlockedAtCeiling` | docker/swarm/autoscaler.py:59-61 | scale-up is refused at or above `max_replicas`, whatever the readings and the clock |
| `Autoscaler.ScaleUpCooldown` | docker/swarm/autoscaler.py:62-64 | scale-up is refused while less than the scale-up cooldown has elapsed; once at least that much has (equality included), below the ceiling, it holds iff CPU or memory is strictly above its threshold |
| `Autoscaler.ScaleDownGuards` | docker/swarm/autoscaler.py:66-70 | scale-down is refused at or below `min_replicas` and while less than the scale-down cooldown has elapsed |
| `Autoscaler.ScaleDownNeedsBothLow` | docker/swarm/autoscaler.py:71 | past its guards, scale-down holds iff CPU and memory are both strictly below half their thresholds |
| `Autoscaler.ScalingPredicatesExclusive` | docker/swarm/autoscaler.py:59-71 | with thresholds that are not negative, the two predicates are never both true |
| `Autoscaler.Decide` | docker/swarm/autoscaler.py:88-96 | scale-up exactly when its predicate holds and scale-down exactly when only the scale-down predicate holds; the target is one above the count and within the ceiling, or one below and within the floor; a count within bounds stays within bounds |
| `Autoscaler.UnreadableListingTargetsTwo` | docker/swarm/autoscaler.py:84-92 | with an unreadable listing, hot CPU and the cooldown elapsed, the tick targets 2 replicas |
| `Autoscaler.LastAfterScaled` | docker/swarm/autoscaler.py:53 | once a tick has scaled, the last scale time never falls below that tick's time, even when the wall clock steps back between ticks, given cooldowns that are not negative |
| `Autoscaler.LastAfterMonotone` | docker/swarm/autoscaler.py:53-69 | given cooldowns that are not negative, the last scale time never moves back over a run of ticks, even when the wall clock steps back between ticks |
| `Autoscaler.CooldownBetweenScales` | docker/swarm/autoscaler.py:76-101 | given cooldowns that are not negative, between two successful scales at least the scale-up cooldown precedes a scale-up and at least the scale-down cooldown precedes a scale-down, even when the wall clock steps back between ticks |
| `Autoscaler.ClockStepBackStillScales` | docker/swarm/autoscaler.py:76-101 | a run whose clock reads 1000, 900 and 1100 with CPU hot and every command succeeding scales at the first and third ticks and not at the second |
| `Autoscaler.DockerAutoscaler.constructor` | docker/swarm/autoscaler.py:13-22 | the configuration is the fixed one and the last scale time starts at 0 |
| `Autoscaler.DockerAutoscaler.ScaleService` | docker/swarm/autoscaler.py:47-57 | issues the scale command for the given count and returns whether it succeeded; sets the last scale time to now on success and leaves it unchanged on failure |
| `Autoscaler.DockerAutoscaler.Tick` | docker/swarm/autoscaler.py:82-96 | missing readings count as 0; the count is the listed one; the decision is `Decide`'s; a scale command for the decision's target is issued only on a scaling decision; the timestamp moves to now exactly when that scale succeeds |
| `Autoscaler.DockerAutoscaler.Run` | docker/swarm/autoscaler.py:76-101 | a sequence of ticks gives, tick by tick, the outcomes of `Step` threaded through the last scale time |

## Left out

- Prometheus queries and the decoding of their JSON (`get_metric`) are HTTP I/O. The model takes each reading as an `Option<real>`, `None` when the query failed or returned nothing.
- The `docker service ls` and `docker service scale` processes are I/O. The model takes the decoded listing and the command's success as inputs. The command line (`docker_service-a=N`) is not modelled.
- Each listing line is decoded with `json.loads`, which is not modelled. A record field is `None` when the key is missing or its value is not a string. A listing is `None` when any line fails to decode, since the list is built before the search.
- A `Name` value that is a JSON list or object rather than a string is modelled as unreadable. Python would instead test list membership or key membership there.
- Logging is not modelled.
- The endless `while True` loop and its 30-second sleep are not modelled as such. `Run` models a finite prefix of ticks.
- `Tick`: the source reads the wall clock separately in each predicate and again after the scale command. The model uses one reading, `now`, per tick. So `LastAfterScaled`, `LastAfterMonotone` and `CooldownBetweenScales` cover a clock that steps back between ticks, not one that steps back during a tick: in the source a step back during the scale command moves the last scale time back.
- Metric readings are exact reals, not floating point. NaN and infinities are not modelled.
- `PyStr.ParseInt` handles ASCII text only. On text holding a non-ASCII character, Python's `int()` also accepts other Unicode decimal digits and skips Unicode whitespace, including 0x1C to 0x1F. The limit of 4300 digits that Python 3.11 and later place on `int()` is not modelled either.
- `PyStr.ParseIntRoundTrip` holds for every integer in the model. Python 3.11 and later raise `ValueError` on text of more than 4300 digits, so there the round trip holds only for integers of at most 4300 digits.
- The `except Exception` in `run` is not modelled. Every call in a tick already catches its own errors.
- The Prometheus URL in the configuration is not modelled.
- The Resilience4j circuit breaker, retry, bulkhead, rate limiter and time limiter are not modelled. Their code is not part of the repository.
- The HTTP controllers, the Node.js client, the Lambda adapter, the Locust load test and the build files are not modelled. They hold no scaling or admission logic of their own.
