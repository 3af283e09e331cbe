/**
 * The immutable `TraceOptions` record of `lib/trace-options.js`: the
 * constructor stores five of its six arguments once, and the getters
 * only read.  `serviceName` is accepted and dropped.
 */
module TraceOptionsRecord {
  import opened Wrappers

  /** The fields the constructor writes (`_enabled` ... `_collectorUrl`).
      The record has no `_collectUrl` field: nothing ever writes one. */
  datatype TraceOptions = TraceOptions(
    enabled: Option<bool>,
    jaegerHost: Option<string>,
    jaegerEndpoint: Option<string>,
    zipkinUrl: Option<string>,
    collectorUrl: Option<string>)
  {
    function GetEnabled(): (r: Option<bool>) ensures r == enabled { enabled }
    function GetJaegerHost(): (r: Option<string>) ensures r == jaegerHost { jaegerHost }
    function GetJaegerEndpoint(): (r: Option<string>) ensures r == jaegerEndpoint { jaegerEndpoint }
    function GetZipkinUrl(): (r: Option<string>) ensures r == zipkinUrl { zipkinUrl }

    /** `get collectUrl()` as written: it reads `_collectUrl`, a field never
        assigned, so the result is always absent. */
    function GetCollectUrl(): (r: Option<string>)
      ensures r == None
    {
      None
    }

    /** The getter as evidently intended: the collector URL the constructor stored. */
    function GetCollectorUrl(): (r: Option<string>)
      ensures r == collectorUrl
    {
      collectorUrl
    }
  }

  /** `new TraceOptions(serviceName, enabled, jaegerHost, jaegerEndpoint, zipkinUrl, collectorUrl)`. */
  function NewTraceOptions(serviceName: Option<string>, enabled: Option<bool>, jaegerHost: Option<string>,
                           jaegerEndpoint: Option<string>, zipkinUrl: Option<string>, collectorUrl: Option<string>): (r: TraceOptions)
    ensures r.GetEnabled() == enabled && r.GetJaegerHost() == jaegerHost
    ensures r.GetJaegerEndpoint() == jaegerEndpoint && r.GetZipkinUrl() == zipkinUrl
    ensures r.GetCollectorUrl() == collectorUrl
  {
    TraceOptions(enabled, jaegerHost, jaegerEndpoint, zipkinUrl, collectorUrl)
  }

  /** The service name is not kept: records built with different service
      names and otherwise equal arguments are the same record. */
  lemma ServiceNameIsDropped(s1: Option<string>, s2: Option<string>, enabled: Option<bool>, jaegerHost: Option<string>,
                             jaegerEndpoint: Option<string>, zipkinUrl: Option<string>, collectorUrl: Option<string>)
    ensures NewTraceOptions(s1, enabled, jaegerHost, jaegerEndpoint, zipkinUrl, collectorUrl)
         == NewTraceOptions(s2, enabled, jaegerHost, jaegerEndpoint, zipkinUrl, collectorUrl)
  {
  }

  /** The defect: a collector URL passed to the constructor cannot be read
      back through `collectUrl`. */
  lemma CollectUrlLosesCollectorUrl(serviceName: Option<string>, enabled: Option<bool>, url: string)
    ensures var r := NewTraceOptions(serviceName, enabled, None, None, None, Some(url));
            r.GetCollectUrl() == None && r.GetCollectorUrl() == Some(url)
  {
  }
}
