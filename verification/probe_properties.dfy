/**
 * What the probe handler promises: parameter validation before any call,
 * the fixed and short-circuiting call order, logout only on success, the
 * gauge contents, the panic on an empty datacenter list, and, against the
 * client model, the requests on the wire.
 *
 * The orchestration lemmas are stated about `Handle` for every combination
 * of client results, so they hold for `Probe` whatever the server does.
 */
module ProbeProperties {
  import opened Basics
  import opened Prober
  import V = VCenter
  import GoStrings
  import ClientProperties

  /** The order in which the handler calls the client. */
  const CallOrder: seq<Op> := [Authenticate, GetDatacenter, GetDatastores, GetHosts, LogOut]

  /** The trace is a prefix of CallOrder. */
  ghost predicate FollowsCallOrder(t: seq<Step>) {
    |t| <= |CallOrder| && forall i :: 0 <= i < |t| ==> t[i].op == CallOrder[i]
  }

  /** Missing parameters end the request with a 400 before any client call; `target` is checked first. */
  lemma ParameterValidation(q: Query, a: V.Call<string>, dc: V.Call<seq<V.VcenterDatacenter>>,
                            ds: V.Call<seq<V.Datastore>>, h: V.Call<seq<V.Host>>, lo: Option<V.Request>)
    ensures var r := Handle(q, a, dc, ds, h, lo);
      && (q.target == "" ==> r == ProbeResult(BadRequest("Target parameter is missing"), []))
      && (q.target != "" && q.dc == "" ==> r == ProbeResult(BadRequest("DC parameter is missing"), []))
      && (r.trace == [] <==> q.target == "" || q.dc == "")
  {
  }

  /** The five steps the handler records if it makes every call. */
  function Steps(a: V.Call<string>, dc: V.Call<seq<V.VcenterDatacenter>>, ds: V.Call<seq<V.Datastore>>,
                 h: V.Call<seq<V.Host>>, lo: Option<V.Request>): seq<Step> {
    [Step(Authenticate, a.sent, a.err), Step(GetDatacenter, dc.sent, dc.err), Step(GetDatastores, ds.sent, ds.err),
     Step(GetHosts, h.sent, h.err), Step(LogOut, lo, None)]
  }

  /** How many client calls the handler makes, read off the calls' results. */
  function CallsMade(q: Query, a: V.Call<string>, dc: V.Call<seq<V.VcenterDatacenter>>,
                     ds: V.Call<seq<V.Datastore>>, h: V.Call<seq<V.Host>>): nat {
    if q.target == "" || q.dc == "" then 0
    else if a.err.Some? then 1
    else if dc.err.Some? then 2
    else if ds.err.Some? || (ds.value != [] && dc.value == []) then 3
    else if h.err.Some? || (h.value != [] && dc.value == []) then 4
    else 5
  }

  /**
   * Relates a result r to the count n of calls made and the five steps a
   * full run would record: the trace is the first n steps; the outcome is a
   * 400 with the failing call's error, a panic when a loop needed the missing
   * first datacenter, or the gauges once all five calls were made; every
   * call before the last one made succeeded.
   */
  ghost predicate TraceOf(r: ProbeResult, n: nat, steps: seq<Step>) {
    && |steps| == 5 && n <= 5
    && (forall i :: 0 <= i < 5 ==> steps[i].op == CallOrder[i])
    && steps[4].err.None?
    && r.trace == steps[..n]
    && (forall i :: 0 <= i < n - 1 ==> steps[i].err.None?)
    && (n == 5 <==> r.outcome.Metrics?)
    && (r.outcome.IndexOutOfRange? ==> r.outcome == IndexOutOfRange(0, 0) && 3 <= n <= 4 && steps[n - 1].err.None?)
    && (0 < n < 5 && steps[n - 1].err.Some? ==> r.outcome == BadRequest(steps[n - 1].err.value))
    && (0 < n < 5 && steps[n - 1].err.None? ==> r.outcome.IndexOutOfRange?)
  }

  /** The handler's trace and outcome, against the reference count of calls. */
  lemma HandleTrace(q: Query, a: V.Call<string>, dc: V.Call<seq<V.VcenterDatacenter>>,
                    ds: V.Call<seq<V.Datastore>>, h: V.Call<seq<V.Host>>, lo: Option<V.Request>)
    ensures TraceOf(Handle(q, a, dc, ds, h, lo), CallsMade(q, a, dc, ds, h), Steps(a, dc, ds, h, lo))
  {
    var n, steps := CallsMade(q, a, dc, ds, h), Steps(a, dc, ds, h, lo);
    if n == 1 {
      assert steps[..1] == [steps[0]];
    } else if n == 2 {
      assert steps[..2] == [steps[0]] + [steps[1]];
    } else if n == 3 {
      assert steps[..3] == [steps[0]] + [steps[1]] + [steps[2]];
    } else if n == 4 {
      assert steps[..4] == [steps[0]] + [steps[1]] + [steps[2]] + [steps[3]];
    } else if n == 5 {
      assert steps[..5] == [steps[0]] + [steps[1]] + [steps[2]] + [steps[3]] + [steps[4]];
    }
  }

  /** A prefix of the call order where only the last call may fail. */
  ghost predicate ShortCircuits(r: ProbeResult) {
    && FollowsCallOrder(r.trace)
    && (forall i :: 0 <= i < |r.trace| - 1 ==> r.trace[i].err.None?)
    && (r.trace != [] ==> (r.outcome.BadRequest? <==> r.trace[|r.trace| - 1].err.Some?))
    && (r.trace != [] && r.outcome.BadRequest? ==> r.trace[|r.trace| - 1].err == Some(r.outcome.message))
    && (r.outcome.Metrics? ==> |r.trace| == 5)
    && (r.outcome.IndexOutOfRange? ==> r.outcome == IndexOutOfRange(0, 0) && 3 <= |r.trace| <= 4)
  }

  lemma TraceOfShortCircuits(r: ProbeResult, n: nat, steps: seq<Step>)
    requires TraceOf(r, n, steps)
    ensures ShortCircuits(r)
  {
  }

  /**
   * Calls happen in the fixed order and stop at the first failure: every call
   * but the last in the trace succeeded; the request is a 400 exactly when
   * the last call failed, with that call's error text; success runs all five
   * calls; a panic happens after the datastore or host call.
   */
  lemma CallSequence(q: Query, a: V.Call<string>, dc: V.Call<seq<V.VcenterDatacenter>>,
                     ds: V.Call<seq<V.Datastore>>, h: V.Call<seq<V.Host>>, lo: Option<V.Request>)
    ensures ShortCircuits(Handle(q, a, dc, ds, h, lo))
  {
    HandleTrace(q, a, dc, ds, h, lo);
    TraceOfShortCircuits(Handle(q, a, dc, ds, h, lo), CallsMade(q, a, dc, ds, h), Steps(a, dc, ds, h, lo));
  }

  /**
   * LogOut is called only when all three listings succeeded, exactly once,
   * as the last call; no failure or panic path logs out.
   */
  lemma LogOutOnlyOnSuccess(q: Query, a: V.Call<string>, dc: V.Call<seq<V.VcenterDatacenter>>,
                            ds: V.Call<seq<V.Datastore>>, h: V.Call<seq<V.Host>>, lo: Option<V.Request>)
    ensures var r := Handle(q, a, dc, ds, h, lo);
      && ((exists i :: 0 <= i < |r.trace| && r.trace[i].op == LogOut) <==> r.outcome.Metrics?)
      && (forall i :: 0 <= i < |r.trace| && r.trace[i].op == LogOut ==> i == |r.trace| - 1)
  {
    HandleTrace(q, a, dc, ds, h, lo);
    LogOutLast(Handle(q, a, dc, ds, h, lo), CallsMade(q, a, dc, ds, h), Steps(a, dc, ds, h, lo));
  }

  lemma LogOutLast(r: ProbeResult, n: nat, steps: seq<Step>)
    requires TraceOf(r, n, steps)
    ensures (exists i :: 0 <= i < |r.trace| && r.trace[i].op == LogOut) <==> r.outcome.Metrics?
    ensures forall i :: 0 <= i < |r.trace| && r.trace[i].op == LogOut ==> i == |r.trace| - 1
  {
    if r.outcome.Metrics? {
      assert r.trace[4].op == LogOut;
    }
  }

  /**
   * Datastore samples of a successful request: there is one capacity and one
   * free-space series per distinct (first datacenter's name, name, type) of
   * the datastore records, holding the values of the last record with those
   * labels.
   */
  lemma DatastoreSamples(q: Query, a: V.Call<string>, dc: V.Call<seq<V.VcenterDatacenter>>,
                         ds: V.Call<seq<V.Datastore>>, h: V.Call<seq<V.Host>>, lo: Option<V.Request>)
    requires Handle(q, a, dc, ds, h, lo).outcome.Metrics?
    ensures var g, dcs, d := Handle(q, a, dc, ds, h, lo).outcome.gauges, dc.value, ds.value;
      && (d != [] ==> dcs != [])
      && (forall k :: k in g.capacity <==> dcs != [] && DatastoreLabelled(dcs[0].name, d, k))
      && (forall k :: k in g.free <==> dcs != [] && DatastoreLabelled(dcs[0].name, d, k))
      && (forall k, j :: dcs != [] && LastDatastore(dcs[0].name, d, k, j) ==>
            k in g.capacity && g.capacity[k] == d[j].capacity && k in g.free && g.free[k] == d[j].freeSpace)
  {
    if ds.value != [] {
      SetDatastoresWrites(NoGauges, dc.value[0].name, ds.value);
    }
  }

  /**
   * Host samples of a successful request: one power and one connection
   * series per distinct (first datacenter's name, host name); the last record
   * with a name decides, power being 1 exactly when its state is
   * "POWERED_ON" and 0 otherwise, connection 1 exactly when "CONNECTED" and
   * 0 otherwise.
   */
  lemma HostSamples(q: Query, a: V.Call<string>, dc: V.Call<seq<V.VcenterDatacenter>>,
                    ds: V.Call<seq<V.Datastore>>, h: V.Call<seq<V.Host>>, lo: Option<V.Request>)
    requires Handle(q, a, dc, ds, h, lo).outcome.Metrics?
    ensures var g, dcs, hs := Handle(q, a, dc, ds, h, lo).outcome.gauges, dc.value, h.value;
      && (hs != [] ==> dcs != [])
      && (forall k :: k in g.power <==> dcs != [] && HostLabelled(dcs[0].name, hs, k))
      && (forall k :: k in g.connection <==> dcs != [] && HostLabelled(dcs[0].name, hs, k))
      && (forall k, j :: dcs != [] && LastHost(dcs[0].name, hs, k, j) ==>
            && k in g.power && (g.power[k] == 1 <==> hs[j].powerState == "POWERED_ON")
            && (g.power[k] == 0 <==> hs[j].powerState != "POWERED_ON")
            && k in g.connection && (g.connection[k] == 1 <==> hs[j].connectionState == "CONNECTED")
            && (g.connection[k] == 0 <==> hs[j].connectionState != "CONNECTED"))
  {
    var dcs := dc.value;
    var g1 := if ds.value == [] then NoGauges else SetDatastores(NoGauges, dcs[0].name, ds.value);
    assert g1.power == map[] && g1.connection == map[];
    if h.value != [] {
      SetHostsWrites(g1, dcs[0].name, h.value);
    }
  }

  /**
   * Every sample of a successful request is labelled with the name of the
   * first datacenter record returned, whatever the `dc` query value was.
   */
  lemma SamplesLabelledWithFirstDatacenter(q: Query, a: V.Call<string>, dc: V.Call<seq<V.VcenterDatacenter>>,
                                           ds: V.Call<seq<V.Datastore>>, h: V.Call<seq<V.Host>>, lo: Option<V.Request>)
    requires Handle(q, a, dc, ds, h, lo).outcome.Metrics?
    ensures var g, dcs := Handle(q, a, dc, ds, h, lo).outcome.gauges, dc.value;
      && (forall k :: k in g.capacity ==> dcs != [] && k.dcName == dcs[0].name)
      && (forall k :: k in g.free ==> dcs != [] && k.dcName == dcs[0].name)
      && (forall k :: k in g.power ==> dcs != [] && k.dcName == dcs[0].name)
      && (forall k :: k in g.connection ==> dcs != [] && k.dcName == dcs[0].name)
  {
    DatastoreSamples(q, a, dc, ds, h, lo);
    HostSamples(q, a, dc, ds, h, lo);
  }

  /**
   * An empty datacenter list is not turned into a 400: with datastore
   * records the request panics right after the datastore call (hosts are
   * never fetched); with only host records it panics after the host call;
   * with neither it succeeds with no samples and logs out.
   */
  lemma EmptyDatacenterList(q: Query, a: V.Call<string>, dc: V.Call<seq<V.VcenterDatacenter>>,
                            ds: V.Call<seq<V.Datastore>>, h: V.Call<seq<V.Host>>, lo: Option<V.Request>)
    requires q.target != "" && q.dc != ""
    requires a.err.None? && dc.err.None? && dc.value == [] && ds.err.None?
    ensures var r := Handle(q, a, dc, ds, h, lo);
      && (ds.value != [] ==> r.outcome == IndexOutOfRange(0, 0) && |r.trace| == 3)
      && (ds.value == [] && h.err.Some? ==> r.outcome == BadRequest(h.err.value) && |r.trace| == 4)
      && (ds.value == [] && h.err.None? && h.value != [] ==> r.outcome == IndexOutOfRange(0, 0) && |r.trace| == 4)
      && (ds.value == [] && h.err.None? && h.value == [] ==>
            r.outcome == Metrics(NoGauges) && |r.trace| == 5 && r.trace[4].op == LogOut)
  {
  }

  /** The client results `Probe` hands to `Handle`. */
  lemma ProbeCalls(q: Query, cfg: Config, net: V.Network)
    ensures var m := ClientModel(q, cfg); var a := V.Authenticate(m, net);
      Probe(q, cfg, net) == Handle(q, a, V.GetDatacenter(m, a.value, net), V.GetDatastores(m, a.value, net),
                                   V.GetHosts(m, a.value, net), V.LogOut(m, a.value, net))
  {
  }

  /** Whatever the server answers to the logout, the probe's result is the same. */
  lemma LogOutResponseIgnored(q: Query, cfg: Config, net: V.Network, reply: V.Exchange<()>)
    ensures Probe(q, cfg, net.(logout := reply)) == Probe(q, cfg, net)
  {
    var m, net' := ClientModel(q, cfg), net.(logout := reply);
    var a := V.Authenticate(m, net);
    assert V.Authenticate(m, net') == a;
    ClientProperties.ListingPaths(m, a.value, net);
    ClientProperties.ListingPaths(m, a.value, net');
    ClientProperties.LogOutSwallowsErrors(m, a.value, net, reply);
  }

  /** The handler never sets a port: the remote address is the target followed by a bare colon. */
  lemma RemoteAddress(q: Query, cfg: Config)
    ensures ClientModel(q, cfg).port == ""
    ensures V.Addr(ClientModel(q, cfg)) == q.target + ":"
  {
  }

  /** The URL each call of the trace uses. */
  function ExpectedUrl(q: Query, op: Op): string {
    match op
    case Authenticate => "https://" + q.target + ":" + "/api/session"
    case GetDatacenter => "https://" + q.target + ":" + "/api/vcenter/datacenter" + "?datacenters=" + q.dc
    case GetDatastores => "https://" + q.target + ":" + "/api/vcenter/datastore" + "?datacenters=" + q.dc
    case GetHosts => "https://" + q.target + ":" + "/api/vcenter/host" + "?datacenters=" + q.dc
    case LogOut => "https://" + q.target + ":" + "/api/session"
  }

  function ExpectedVerb(op: Op): string {
    match op
    case Authenticate => "POST"
    case LogOut => "DELETE"
    case _ => "GET"
  }

  /** The request a step sent, if any, went to its URL with its method and the given header. */
  ghost predicate SentAs(q: Query, s: Step, header: V.Header) {
    s.sent.Some? ==> s.sent.value == V.Request(ExpectedVerb(s.op), ExpectedUrl(q, s.op), header)
  }

  /** The header of every call after Authenticate, given the body of the 201 session response. */
  function SessionIdHeader(body: string): V.Header {
    V.Header("vmware-api-session-id", GoStrings.Trim(body, '"'))
  }

  function BasicCredentialHeader(cfg: Config): V.Header {
    V.Header("Authorization", "Basic " + V.BasicAuth(cfg.vcenterUser, cfg.vcenterPass))
  }

  /**
   * The requests on the wire: each goes to its fixed URL under
   * `https://<target>:` with its fixed method; the first carries the Basic
   * credential; calls after it happen only once the session request got a
   * 201, and each carries that response's body with its surrounding quotes
   * trimmed as the session id.
   */
  lemma RequestsOnTheWire(q: Query, cfg: Config, net: V.Network)
    ensures var r := Probe(q, cfg, net);
      && (|r.trace| > 0 ==> SentAs(q, r.trace[0], BasicCredentialHeader(cfg)))
      && (|r.trace| > 1 ==>
            && net.session.Response? && net.session.status == 201
            && forall i :: 1 <= i < |r.trace| ==> SentAs(q, r.trace[i], SessionIdHeader(net.session.body)))
  {
    FirstRequestSent(q, cfg, net);
    LaterRequestsSent(q, cfg, net);
  }

  lemma FirstRequestSent(q: Query, cfg: Config, net: V.Network)
    ensures var r := Probe(q, cfg, net); |r.trace| > 0 ==> SentAs(q, r.trace[0], BasicCredentialHeader(cfg))
  {
    var m := ClientModel(q, cfg);
    var a := V.Authenticate(m, net);
    var dc, ds, h, lo := V.GetDatacenter(m, a.value, net), V.GetDatastores(m, a.value, net),
                         V.GetHosts(m, a.value, net), V.LogOut(m, a.value, net);
    ProbeCalls(q, cfg, net);
    HandleTrace(q, a, dc, ds, h, lo);
    AuthStepSent(q, cfg, net);
  }

  lemma LaterRequestsSent(q: Query, cfg: Config, net: V.Network)
    ensures var r := Probe(q, cfg, net);
      |r.trace| > 1 ==>
        && net.session.Response? && net.session.status == 201
        && forall i :: 1 <= i < |r.trace| ==> SentAs(q, r.trace[i], SessionIdHeader(net.session.body))
  {
    var m := ClientModel(q, cfg);
    var a := V.Authenticate(m, net);
    var dc, ds, h, lo := V.GetDatacenter(m, a.value, net), V.GetDatastores(m, a.value, net),
                         V.GetHosts(m, a.value, net), V.LogOut(m, a.value, net);
    ProbeCalls(q, cfg, net);
    if a.err.None? {
      ListingStepsSent(q, cfg, net);
      LogOutStepSent(q, cfg, net);
      HandleLaterSent(q, a, dc, ds, h, lo, SessionIdHeader(net.session.body));
    } else {
      HandleLaterSent(q, a, dc, ds, h, lo, V.Header("", ""));
    }
  }

  /** Calls after the first happen only after a successful session request, and carry what its callers sent. */
  lemma HandleLaterSent(q: Query, a: V.Call<string>, dc: V.Call<seq<V.VcenterDatacenter>>,
                        ds: V.Call<seq<V.Datastore>>, h: V.Call<seq<V.Host>>, lo: Option<V.Request>, header: V.Header)
    requires a.err.None? ==>
      && SentAs(q, Step(GetDatacenter, dc.sent, dc.err), header)
      && SentAs(q, Step(GetDatastores, ds.sent, ds.err), header)
      && SentAs(q, Step(GetHosts, h.sent, h.err), header)
      && SentAs(q, Step(LogOut, lo, None), header)
    ensures var r := Handle(q, a, dc, ds, h, lo);
      |r.trace| > 1 ==> a.err.None? && forall i :: 1 <= i < |r.trace| ==> SentAs(q, r.trace[i], header)
  {
    var r, n, steps := Handle(q, a, dc, ds, h, lo), CallsMade(q, a, dc, ds, h), Steps(a, dc, ds, h, lo);
    HandleTrace(q, a, dc, ds, h, lo);
    if n > 1 {
      SentPrefix(q, r, n, steps, header);
    }
  }

  lemma AuthStepSent(q: Query, cfg: Config, net: V.Network)
    ensures var a := V.Authenticate(ClientModel(q, cfg), net);
      SentAs(q, Step(Authenticate, a.sent, a.err), BasicCredentialHeader(cfg))
  {
    ClientProperties.AuthenticateRequest(ClientModel(q, cfg), net);
  }

  lemma ListingStepsSent(q: Query, cfg: Config, net: V.Network)
    requires V.Authenticate(ClientModel(q, cfg), net).err.None?
    ensures net.session.Response? && net.session.status == 201
    ensures var m := ClientModel(q, cfg); var a := V.Authenticate(m, net);
      var dc, ds, h := V.GetDatacenter(m, a.value, net), V.GetDatastores(m, a.value, net), V.GetHosts(m, a.value, net);
      && SentAs(q, Step(GetDatacenter, dc.sent, dc.err), SessionIdHeader(net.session.body))
      && SentAs(q, Step(GetDatastores, ds.sent, ds.err), SessionIdHeader(net.session.body))
      && SentAs(q, Step(GetHosts, h.sent, h.err), SessionIdHeader(net.session.body))
  {
    var m := ClientModel(q, cfg);
    var a := V.Authenticate(m, net);
    ClientProperties.AuthenticateStatusRule(m, net);
    ClientProperties.ListingPaths(m, a.value, net);
    FetchStepSent(q, m, a.value, net, GetDatacenter, V.DatacenterPath, net.datacenters);
    FetchStepSent(q, m, a.value, net, GetDatastores, V.DatastorePath, net.datastores);
    FetchStepSent(q, m, a.value, net, GetHosts, V.HostPath, net.hosts);
  }

  lemma FetchStepSent<T>(q: Query, m: V.Model, sid: string, net: V.Network, op: Op, path: string,
                         reply: V.Exchange<V.Decoded<T>>)
    requires m.host == q.target && m.port == "" && m.dc == q.dc
    requires ExpectedVerb(op) == "GET" && ExpectedUrl(q, op) == "https://" + q.target + ":" + path + "?datacenters=" + q.dc
    ensures var c := V.Fetch(m, path, sid, net, reply); SentAs(q, Step(op, c.sent, c.err), SessionIdHeader(sid))
  {
    ClientProperties.FetchRequest(m, path, sid, net, reply);
    assert "https://" + m.host + ":" + m.port == "https://" + q.target + ":";
  }

  lemma LogOutStepSent(q: Query, cfg: Config, net: V.Network)
    requires V.Authenticate(ClientModel(q, cfg), net).err.None?
    ensures net.session.Response? && net.session.status == 201
    ensures var m := ClientModel(q, cfg);
      SentAs(q, Step(LogOut, V.LogOut(m, V.Authenticate(m, net).value, net), None), SessionIdHeader(net.session.body))
  {
    var m := ClientModel(q, cfg);
    var a := V.Authenticate(m, net);
    ClientProperties.AuthenticateStatusRule(m, net);
    LogOutSent(q, m, a.value, net);
  }

  lemma LogOutSent(q: Query, m: V.Model, sid: string, net: V.Network)
    requires m.host == q.target && m.port == ""
    ensures SentAs(q, Step(LogOut, V.LogOut(m, sid, net), None), SessionIdHeader(sid))
  {
    assert V.Addr(m) == q.target + ":";
    assert V.SessionUrl(m) == ExpectedUrl(q, LogOut);
  }

  lemma SentPrefix(q: Query, r: ProbeResult, n: nat, steps: seq<Step>, rest: V.Header)
    requires TraceOf(r, n, steps) && n > 1
    requires forall i :: 1 <= i < 5 ==> SentAs(q, steps[i], rest)
    ensures forall i :: 1 <= i < |r.trace| ==> SentAs(q, r.trace[i], rest)
  {
  }

  /**
   * A session request answered with anything but 201 ends the request with a
   * 400 carrying "http response error: <status>", after the one call: no
   * listing and no logout.
   */
  lemma AuthenticationRejected(q: Query, cfg: Config, net: V.Network)
    requires q.target != "" && q.dc != ""
    requires net.newRequestError(V.SessionUrl(ClientModel(q, cfg))).None?
    requires net.session.Response? && net.session.status != 201
    ensures var r := Probe(q, cfg, net);
      && r.outcome == BadRequest(V.StatusError(net.session.status))
      && |r.trace| == 1 && r.trace[0].op == Authenticate && r.trace[0].sent.Some?
  {
    var m := ClientModel(q, cfg);
    ClientProperties.AuthenticateStatusRule(m, net);
    ClientProperties.AuthenticateRequest(m, net);
  }

  /** A server that answers every call as a healthy vCenter with one datacenter, datastore and host. */
  const HealthyServer: V.Network := V.Network(
    _ => None,
    V.Response(201, "\"tok123\""),
    V.Response(200, V.Decoded([V.VcenterDatacenter("DC1", "dc-1")])),
    V.Response(200, V.Decoded([V.Datastore("datastore-1", "ds1", "VMFS", 100, 500)])),
    V.Response(200, V.Decoded([V.Host("host-1", "esx1", "CONNECTED", "POWERED_ON")])),
    V.Response(200, ()))

  /**
   * Against HealthyServer the probe exposes capacity 500 and free space 100
   * for ds1 and state 1 for esx1, all under DC1, and logs out once, last.
   */
  lemma HealthyServerProbe(target: string, cfg: Config)
    requires target != ""
    ensures var r := Probe(Query(target, "DC1"), cfg, HealthyServer);
      && r.outcome == Metrics(HealthyGauges)
      && |r.trace| == 5 && r.trace[4].op == LogOut
      && forall i :: 0 <= i < 4 ==> r.trace[i].op != LogOut
  {
    var q, net := Query(target, "DC1"), HealthyServer;
    var m := ClientModel(q, cfg);
    var a := V.Authenticate(m, net);
    HealthyAnswers(m, a.value);
    ProbeCalls(q, cfg, net);
    HealthyHandle(q, a, V.GetDatacenter(m, a.value, net), V.GetDatastores(m, a.value, net),
                  V.GetHosts(m, a.value, net), V.LogOut(m, a.value, net));
  }

  lemma HealthyAnswers(m: V.Model, sid: string)
    ensures V.Authenticate(m, HealthyServer).err.None?
    ensures var dc := V.GetDatacenter(m, sid, HealthyServer); dc.err.None? && dc.value == [V.VcenterDatacenter("DC1", "dc-1")]
    ensures var ds := V.GetDatastores(m, sid, HealthyServer);
      ds.err.None? && ds.value == [V.Datastore("datastore-1", "ds1", "VMFS", 100, 500)]
    ensures var h := V.GetHosts(m, sid, HealthyServer);
      h.err.None? && h.value == [V.Host("host-1", "esx1", "CONNECTED", "POWERED_ON")]
  {
    var net := HealthyServer;
    ClientProperties.AuthenticateStatusRule(m, net);
    ClientProperties.ListingPaths(m, sid, net);
    ClientProperties.FetchStatusRule(m, V.DatacenterPath, sid, net, net.datacenters);
    ClientProperties.FetchStatusRule(m, V.DatastorePath, sid, net, net.datastores);
    ClientProperties.FetchStatusRule(m, V.HostPath, sid, net, net.hosts);
  }

  /** The gauges for one datastore ds1 (VMFS, 500 capacity, 100 free) and one healthy host esx1 in DC1. */
  const HealthyGauges: Gauges := Gauges(
    map[DatastoreLabels("DC1", "ds1", "VMFS") := 500],
    map[DatastoreLabels("DC1", "ds1", "VMFS") := 100],
    map[HostLabels("DC1", "esx1") := 1],
    map[HostLabels("DC1", "esx1") := 1])

  lemma HealthyHandle(q: Query, a: V.Call<string>, dc: V.Call<seq<V.VcenterDatacenter>>,
                      ds: V.Call<seq<V.Datastore>>, h: V.Call<seq<V.Host>>, lo: Option<V.Request>)
    requires q.target != "" && q.dc != "" && a.err.None?
    requires dc.err.None? && dc.value == [V.VcenterDatacenter("DC1", "dc-1")]
    requires ds.err.None? && ds.value == [V.Datastore("datastore-1", "ds1", "VMFS", 100, 500)]
    requires h.err.None? && h.value == [V.Host("host-1", "esx1", "CONNECTED", "POWERED_ON")]
    ensures var r := Handle(q, a, dc, ds, h, lo);
      && r.outcome == Metrics(HealthyGauges)
      && |r.trace| == 5 && r.trace[4].op == LogOut
      && forall i :: 0 <= i < 4 ==> r.trace[i].op != LogOut
  {
    var dk, hk := DatastoreLabels("DC1", "ds1", "VMFS"), HostLabels("DC1", "esx1");
    assert ds.value[..0] == [] && h.value[..0] == [];
    var g1 := SetDatastores(NoGauges, "DC1", ds.value);
    assert SetDatastores(NoGauges, "DC1", ds.value[..0]) == NoGauges;
    assert DatastoreKey("DC1", ds.value[0]) == dk;
    assert g1 == NoGauges.(capacity := map[][dk := 500], free := map[][dk := 100]);
    assert SetHosts(g1, "DC1", h.value) == g1.(power := map[][hk := 1], connection := map[][hk := 1]);
    assert map[][dk := 500] == map[dk := 500] && map[][dk := 100] == map[dk := 100] && map[][hk := 1] == map[hk := 1];
    HandleTrace(q, a, dc, ds, h, lo);
  }
}
