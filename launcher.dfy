/**
 * The launcher function (lambda/lambda_function.py): on every invocation it
 * reads the server service's desired task count and raises it from 0 to 1,
 * leaving any other count alone.
 *
 * The ECS control plane is the `Ecs` class: a desired count per service and
 * the log of update calls the function has made.
 */
module Launcher {
  import opened Wrappers

  const RegionVariable := "REGION_NAME"
  const ClusterVariable := "CLUSTER_NAME"
  const ServiceVariable := "SERVICE_NAME"

  /** The three module-level settings read when the function is loaded. */
  datatype Settings = Settings(region: string, cluster: string, service: string)

  /**
   * Loading the module: each `os.environ[...]` read raises `KeyError` on a
   * missing variable, so the first missing one, in reading order, is the
   * error.
   */
  function LoadSettings(environ: map<string, string>): (r: Result<Settings, string>)
    ensures r.Ok? <==> RegionVariable in environ && ClusterVariable in environ && ServiceVariable in environ
    ensures r.Ok? ==> r.value.region == environ[RegionVariable]
    ensures r.Ok? ==> r.value.cluster == environ[ClusterVariable]
    ensures r.Ok? ==> r.value.service == environ[ServiceVariable]
    ensures RegionVariable !in environ ==> r == Err(RegionVariable)
    ensures RegionVariable in environ && ClusterVariable !in environ ==> r == Err(ClusterVariable)
    ensures RegionVariable in environ && ClusterVariable in environ && ServiceVariable !in environ ==> r == Err(ServiceVariable)
  {
    if RegionVariable !in environ then Err(RegionVariable)
    else if ClusterVariable !in environ then Err(ClusterVariable)
    else if ServiceVariable !in environ then Err(ServiceVariable)
    else Ok(Settings(environ[RegionVariable], environ[ClusterVariable], environ[ServiceVariable]))
  }

  /** A service, as the ECS API addresses it: region of the client, cluster, service name. */
  datatype ServiceKey = ServiceKey(region: string, cluster: string, service: string)

  function KeyOf(s: Settings): ServiceKey
  {
    ServiceKey(s.region, s.cluster, s.service)
  }

  datatype UpdateCall = UpdateCall(service: ServiceKey, desiredCount: nat)

  /** What one invocation ends with; the first two are the two printed messages. */
  datatype Outcome =
    | Updated            // desired count was 0 and is now 1
    | AlreadyRunning     // desired count was not 0; nothing was changed
    | ServiceNotFound    // `describe_services` returned no service and `[0]` raised IndexError

  function OutcomeMessage(o: Outcome): (text: string)
    ensures o.Updated? <==> text == "Updated desiredCount to 1"
  {
    match o
    case Updated => "Updated desiredCount to 1"
    case AlreadyRunning => "desiredCount already at 1"
    case ServiceNotFound => "IndexError: list index out of range"
  }

  /** The desired count the function leaves behind when it finds `desired`. */
  function NextDesiredCount(desired: nat): (next: nat)
    ensures next >= 1
    ensures desired != 0 ==> next == desired
    ensures next == desired || (desired == 0 && next == 1)
  {
    if desired == 0 then 1 else desired
  }

  /** The desired counts after one invocation for `key`. */
  function HandlerEffect(counts: map<ServiceKey, nat>, key: ServiceKey): (after: map<ServiceKey, nat>)
    ensures after.Keys == counts.Keys
    ensures forall k :: k in counts && k != key ==> after[k] == counts[k]
    ensures key in counts ==> after[key] == NextDesiredCount(counts[key])
    ensures key in counts ==> after[key] >= 1 && (counts[key] != 0 ==> after[key] == counts[key])
  {
    if key in counts then counts[key := NextDesiredCount(counts[key])] else counts
  }

  /** The update calls one invocation for `key` makes. */
  function HandlerUpdates(counts: map<ServiceKey, nat>, key: ServiceKey): (calls: seq<UpdateCall>)
    ensures |calls| <= 1
    ensures calls != [] <==> key in counts && counts[key] == 0
    ensures forall i :: 0 <= i < |calls| ==> calls[i] == UpdateCall(key, 1)
  {
    if key in counts && counts[key] == 0 then [UpdateCall(key, 1)] else []
  }

  function HandlerOutcome(counts: map<ServiceKey, nat>, key: ServiceKey): (o: Outcome)
    ensures o.ServiceNotFound? <==> key !in counts
    ensures o.Updated? <==> HandlerUpdates(counts, key) != []
  {
    if key !in counts then ServiceNotFound
    else if counts[key] == 0 then Updated
    else AlreadyRunning
  }

  /** Invoking the function twice has the effect of invoking it once. */
  lemma HandlerIdempotent(counts: map<ServiceKey, nat>, key: ServiceKey)
    ensures HandlerEffect(HandlerEffect(counts, key), key) == HandlerEffect(counts, key)
    ensures HandlerUpdates(HandlerEffect(counts, key), key) == []
  {
  }

  /** Every invocation for a service that exists leaves it wanting at least one task. */
  lemma HandlerStartsServer(counts: map<ServiceKey, nat>, key: ServiceKey)
    requires key in counts
    ensures HandlerEffect(counts, key)[key] >= 1
    ensures HandlerOutcome(counts, key) != ServiceNotFound
  {
  }

  /** The ECS control plane as the function sees it. */
  class Ecs {
    var desiredCounts: map<ServiceKey, nat>
    var updates: seq<UpdateCall>

    constructor(counts: map<ServiceKey, nat>)
      ensures desiredCounts == counts && updates == []
    {
      desiredCounts := counts;
      updates := [];
    }

    /** `describe_services` for one service: its desired count, or nothing when it does not exist. */
    method DescribeDesiredCount(key: ServiceKey) returns (desired: Option<nat>)
      ensures desired.Some? <==> key in desiredCounts
      ensures desired.Some? ==> desired.value == desiredCounts[key]
    {
      if key in desiredCounts {
        desired := Some(desiredCounts[key]);
      } else {
        desired := None;
      }
    }

    /** `update_service` with a new desired count, recorded in the call log. */
    method UpdateService(key: ServiceKey, desiredCount: nat)
      requires key in desiredCounts
      modifies this
      ensures desiredCounts == old(desiredCounts)[key := desiredCount]
      ensures updates == old(updates) + [UpdateCall(key, desiredCount)]
    {
      desiredCounts := desiredCounts[key := desiredCount];
      updates := updates + [UpdateCall(key, desiredCount)];
    }
  }

  /** `lambda_handler`; the event and context arguments are not read. */
  method LambdaHandler(settings: Settings, ecs: Ecs) returns (outcome: Outcome)
    modifies ecs
    ensures outcome == HandlerOutcome(old(ecs.desiredCounts), KeyOf(settings))
    ensures ecs.desiredCounts == HandlerEffect(old(ecs.desiredCounts), KeyOf(settings))
    ensures ecs.updates == old(ecs.updates) + HandlerUpdates(old(ecs.desiredCounts), KeyOf(settings))
  {
    var key := KeyOf(settings);
    var desired := ecs.DescribeDesiredCount(key);
    if desired.None? {
      return ServiceNotFound;
    }
    if desired.value == 0 {
      ecs.UpdateService(key, 1);
      outcome := Updated;
    } else {
      outcome := AlreadyRunning;
    }
  }
}
