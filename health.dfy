/**
 * Liveness and readiness (backend/internal/handlers/health.go).
 *
 * The handler holds an optional database handle and, per request, probes it
 * with a deadline. A timeout and a probe error both come back as a non-nil
 * error, so the handle and the probe fold into one three-way input.
 */
module Health {
  import opened Wrappers
  import opened Values
  import Response

  /** No handle (`h.db == nil`), a probe that returned nil, or one that returned an error. */
  datatype Probe = NotConfigured | ProbeOk | ProbeFailed

  const Healthy := "healthy"
  const Unhealthy := "unhealthy"
  const NotConfiguredState := "not_configured"
  const DatabaseService := "database"
  const Version := "1.0.0"

  const StatusOK := 200
  const StatusServiceUnavailable := 503

  datatype HealthStatus = HealthStatus(status: string, version: string, time: string, services: map<string, string>)

  /** The JSON object a `HealthStatus` is sent as, by its `json` tags. */
  function HealthStatusValue(h: HealthStatus): Any {
    Object(map[
      "status" := Str(h.status),
      "version" := Str(h.version),
      "time" := Str(h.time),
      "services" := Object(map k | k in h.services :: Str(h.services[k]))])
  }

  /** The state one probe outcome reports. */
  function ServiceState(db: Probe): string {
    match db
    case NotConfigured => NotConfiguredState
    case ProbeOk => Healthy
    case ProbeFailed => Unhealthy
  }

  /** The services map `Health` fills. */
  function Services(db: Probe): map<string, string> {
    map[DatabaseService := ServiceState(db)]
  }

  /** Reference definition of the aggregate: unhealthy iff some service is. */
  function AggregateStatus(services: map<string, string>): string {
    if exists k | k in services :: services[k] == Unhealthy then Unhealthy else Healthy
  }

  /** The reply `Health` sends. */
  function HealthReply(db: Probe, keys: map<string, Any>, now: string): Response.Reply {
    var services := Services(db);
    Response.RespondSuccess(keys, now, StatusOK,
      HealthStatusValue(HealthStatus(AggregateStatus(services), Version, now, services)), "")
  }

  /**
   * `HealthHandler.Health`: fills the services map, then scans it for an
   * unhealthy entry, stopping at the first one.
   */
  method Health(db: Probe, keys: map<string, Any>, now: string) returns (r: Response.Reply)
    ensures r == HealthReply(db, keys, now)
  {
    var services: map<string, string> := map[];
    if db != NotConfigured {
      if db == ProbeFailed {
        services := services[DatabaseService := Unhealthy];
      } else {
        services := services[DatabaseService := Healthy];
      }
    } else {
      services := services[DatabaseService := NotConfiguredState];
    }
    assert services == Services(db);

    var status := Healthy;
    var pending := services.Keys;
    while pending != {}
      invariant pending <= services.Keys
      invariant status == Healthy
      invariant forall k | k in services && k !in pending :: services[k] != Unhealthy
      decreases pending
    {
      var k :| k in pending;
      if services[k] == Unhealthy {
        status := Unhealthy;
        break;
      }
      pending := pending - {k};
    }
    assert status == AggregateStatus(services);

    r := Response.RespondSuccess(keys, now, StatusOK, HealthStatusValue(HealthStatus(status, Version, now, services)), "");
  }

  /** The body of a positive readiness answer, `gin.H{"ready": true}`. */
  const ReadyBody: Any := Object(map["ready" := Bool(true)])

  /** `HealthHandler.Ready`: 503 `NOT_READY` when a configured database's probe fails, else 200 `{ready: true}`. */
  function Ready(db: Probe, keys: map<string, Any>, now: string): (r: Response.Reply)
    ensures r.status == StatusServiceUnavailable <==> db == ProbeFailed
    ensures r.status != StatusServiceUnavailable ==> r.status == StatusOK
    ensures r.status == StatusServiceUnavailable ==>
      && r.body.Failure?
      && r.body.err.error.code == "NOT_READY"
      && r.body.err.error.message == "Database not ready"
      && r.body.err.error.details == None
    ensures r.status == StatusOK ==>
      && r.body.Success?
      && r.body.ok.data == Some(ReadyBody)
      && r.body.ok.message == None
    ensures Response.EnvelopeRequestId(r.body) == Response.OmitEmpty(Response.RequestIdString(keys))
  {
    if db == ProbeFailed then
      Response.RespondError(keys, now, StatusServiceUnavailable, "NOT_READY", "Database not ready", Nil)
    else
      Response.RespondSuccess(keys, now, StatusOK, ReadyBody, "")
  }

  // ---------------------------------------------------------------------
  // Properties of the liveness answer.
  // ---------------------------------------------------------------------

  /** The services map has exactly the one key `database`, and its value
      names the probe outcome; the three outcomes report three different states. */
  lemma ServicesReportProbe(db: Probe)
    ensures Services(db).Keys == {DatabaseService}
    ensures Services(db)[DatabaseService] == NotConfiguredState <==> db == NotConfigured
    ensures Services(db)[DatabaseService] == Unhealthy <==> db == ProbeFailed
    ensures Services(db)[DatabaseService] == Healthy <==> db == ProbeOk
  {
  }

  /** The aggregate is one of two states and `not_configured` never downgrades it. */
  lemma AggregateIgnoresNotConfigured(services: map<string, string>, name: string)
    ensures AggregateStatus(services) == Healthy || AggregateStatus(services) == Unhealthy
    ensures name !in services ==>
      AggregateStatus(services[name := NotConfiguredState]) == AggregateStatus(services)
  {
    if name !in services {
      var s' := services[name := NotConfiguredState];
      if AggregateStatus(services) == Unhealthy {
        var k :| k in services && services[k] == Unhealthy;
        assert k in s' && s'[k] == Unhealthy;
      }
    }
  }

  /** The aggregate status is unhealthy exactly when the probe failed. */
  lemma HealthStatusFollowsProbe(db: Probe)
    ensures AggregateStatus(Services(db)) == Unhealthy <==> db == ProbeFailed
  {
    if db == ProbeFailed {
      assert Services(db)[DatabaseService] == Unhealthy;
    }
  }

  /** Liveness always answers 200 with a success envelope, no message, and a
      status object with version "1.0.0" and the services map, whatever the probe. */
  lemma HealthAlwaysOk(db: Probe, keys: map<string, Any>, now: string)
    ensures HealthReply(db, keys, now).status == StatusOK
    ensures HealthReply(db, keys, now).body.Success?
    ensures HealthReply(db, keys, now).body.ok.message == None
    ensures HealthReply(db, keys, now).body.ok.data ==
      Some(HealthStatusValue(HealthStatus(AggregateStatus(Services(db)), Version, now, Services(db))))
  {
  }

  /** Readiness says 200 exactly when liveness reports an aggregate `healthy`:
      the two handlers never disagree about the same probe outcome. */
  lemma ReadyAgreesWithHealth(db: Probe, keys: map<string, Any>, now: string)
    ensures Ready(db, keys, now).status == StatusOK <==> AggregateStatus(Services(db)) == Healthy
  {
    HealthStatusFollowsProbe(db);
  }
}
