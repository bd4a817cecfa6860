/** Health reporting: two probes (database and cache) folded into one status. */
module Health {
  import opened Common

  datatype ProbeStatus = Healthy | Unhealthy
  /** A probe's answer; the latency is reported only for a healthy probe. */
  datatype Probe = Probe(status: ProbeStatus, latency: Option<nat>)
  datatype Overall = HealthyAll | Degraded | UnhealthyAll

  /** Database probe: a failing `SELECT 1` gives Unhealthy with no latency. */
  function CheckDatabase(queryOk: bool, start: nat, end: nat): (p: Probe)
    requires start <= end
    ensures p.status == Healthy <==> queryOk
    ensures p.latency.Some? <==> queryOk
    ensures p.latency.Some? ==> p.latency.value == end - start
  {
    if queryOk then Probe(Healthy, Some(end - start)) else Probe(Unhealthy, None)
  }

  /** Cache probe: the write and read must both succeed and the value read back
      must be exactly "ok". `readBack` is None when either call threw. */
  function CheckCache(readBack: Option<string>, start: nat, end: nat): (p: Probe)
    requires start <= end
    ensures p.status == Healthy <==> readBack == Some("ok")
    ensures p.latency.Some? <==> p.status == Healthy
  {
    if readBack == Some("ok") then Probe(Healthy, Some(end - start)) else Probe(Unhealthy, None)
  }

  function Aggregate(db: Probe, cache: Probe): (s: Overall)
    ensures s == HealthyAll <==> db.status == Healthy && cache.status == Healthy
    ensures s == UnhealthyAll <==> db.status == Unhealthy && cache.status == Unhealthy
    ensures s == Degraded <==> db.status != cache.status
  {
    if db.status == Healthy && cache.status == Healthy then HealthyAll
    else if db.status == Unhealthy && cache.status == Unhealthy then UnhealthyAll
    else
      assert db.status.Healthy? || db.status.Unhealthy?;
      Degraded
  }

  function StatusName(s: Overall): string
  {
    match s
    case HealthyAll => "healthy"
    case Degraded => "degraded"
    case UnhealthyAll => "unhealthy"
  }

  /** Readiness: ready unless both probes failed; a degraded service is ready. */
  function Readiness(db: Probe, cache: Probe): (ready: bool)
    ensures ready <==> db.status == Healthy || cache.status == Healthy
    ensures ready <==> StatusName(Aggregate(db, cache)) != "unhealthy"
  {
    Aggregate(db, cache) != UnhealthyAll
  }

  /** Liveness never depends on the probes. */
  function Liveness(): (alive: bool)
    ensures alive
  {
    true
  }
}
