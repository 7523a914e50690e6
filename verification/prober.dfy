/**
 * The probe handler (package `prober`, function `Handler`) as a pure
 * function: query values, configuration and the network in; the response
 * outcome and the trace of client calls out.
 */
module Prober {
  import opened Basics
  import V = VCenter

  /** The query values `target` and `dc` (absent parameters read as ""). */
  datatype Query = Query(target: string, dc: string)

  /** Process configuration; the handler reads only the credentials. */
  datatype Config = Config(vcenterUser: string, vcenterPass: string, vcenterDC: string)

  /** Label values of the two datastore gauges: `dc_name`, `ds_name`, `ds_type`. */
  datatype DatastoreLabels = DatastoreLabels(dcName: string, dsName: string, dsType: string)

  /** Label values of the two host gauges: `dc_name`, `host_name`. */
  datatype HostLabels = HostLabels(dcName: string, hostName: string)

  /**
   * The four gauge families of one request's registry, each a map from label
   * values to the sample last set for them.
   */
  datatype Gauges = Gauges(
    capacity: map<DatastoreLabels, int>,
    free: map<DatastoreLabels, int>,
    power: map<HostLabels, int>,
    connection: map<HostLabels, int>)

  const NoGauges: Gauges := Gauges(map[], map[], map[], map[])

  /** The client methods the handler calls. */
  datatype Op = Authenticate | GetDatacenter | GetDatastores | GetHosts | LogOut

  /** One client call: which method, the request it sent, the error it returned. */
  datatype Step = Step(op: Op, sent: Option<V.Request>, err: Option<string>)

  /**
   * How the request ends: a 400 response with a message, a 200 response
   * exposing the gauges, or a runtime panic from indexing an empty slice.
   */
  datatype Outcome =
    | BadRequest(message: string)
    | Metrics(gauges: Gauges)
    | IndexOutOfRange(index: int, length: int)

  datatype ProbeResult = ProbeResult(outcome: Outcome, trace: seq<Step>)

  const TargetMissing: string := "Target parameter is missing"
  const DcMissing: string := "DC parameter is missing"
  const PoweredOn: string := "POWERED_ON"
  const Connected: string := "CONNECTED"

  /** The client settings the handler builds; `Port` is never set. */
  function ClientModel(q: Query, cfg: Config): V.Model {
    V.Model(cfg.vcenterUser, cfg.vcenterPass, q.target, "", q.dc)
  }

  /** The binary state gauges: 1 for exactly the "on" enumerant, 0 for anything else. */
  function OnOff(state: string, on: string): int {
    if state == on then 1 else 0
  }

  function DatastoreKey(dcName: string, v: V.Datastore): DatastoreLabels {
    DatastoreLabels(dcName, v.name, v.kind)
  }

  function HostKey(dcName: string, h: V.Host): HostLabels {
    HostLabels(dcName, h.name)
  }

  /** Some datastore record carries the labels k. */
  ghost predicate DatastoreLabelled(dcName: string, ds: seq<V.Datastore>, k: DatastoreLabels) {
    exists j :: 0 <= j < |ds| && DatastoreKey(dcName, ds[j]) == k
  }

  /** Record j is the last datastore record carrying the labels k. */
  ghost predicate LastDatastore(dcName: string, ds: seq<V.Datastore>, k: DatastoreLabels, j: int) {
    && 0 <= j < |ds|
    && DatastoreKey(dcName, ds[j]) == k
    && forall j' :: j < j' < |ds| ==> DatastoreKey(dcName, ds[j']) != k
  }

  ghost predicate HostLabelled(dcName: string, hs: seq<V.Host>, k: HostLabels) {
    exists j :: 0 <= j < |hs| && HostKey(dcName, hs[j]) == k
  }

  ghost predicate LastHost(dcName: string, hs: seq<V.Host>, k: HostLabels, j: int) {
    && 0 <= j < |hs|
    && HostKey(dcName, hs[j]) == k
    && forall j' :: j < j' < |hs| ==> HostKey(dcName, hs[j']) != k
  }

  /**
   * What the datastore loop leaves behind, starting from g: a label set gets
   * the capacity and free space of the last record carrying it; other series
   * and the host gauges are untouched.
   */
  ghost predicate DatastoresWritten(g: Gauges, dcName: string, ds: seq<V.Datastore>, r: Gauges) {
    && r.power == g.power && r.connection == g.connection
    && (forall k :: k in r.capacity <==> k in g.capacity || DatastoreLabelled(dcName, ds, k))
    && (forall k :: k in r.free <==> k in g.free || DatastoreLabelled(dcName, ds, k))
    && (forall k, j :: LastDatastore(dcName, ds, k, j) ==>
          k in r.capacity && r.capacity[k] == ds[j].capacity && k in r.free && r.free[k] == ds[j].freeSpace)
    && (forall k :: k in g.capacity && !DatastoreLabelled(dcName, ds, k) ==> k in r.capacity && r.capacity[k] == g.capacity[k])
    && (forall k :: k in g.free && !DatastoreLabelled(dcName, ds, k) ==> k in r.free && r.free[k] == g.free[k])
  }

  /** What the host loop leaves behind: the last record with a name decides both state gauges. */
  ghost predicate HostsWritten(g: Gauges, dcName: string, hs: seq<V.Host>, r: Gauges) {
    && r.capacity == g.capacity && r.free == g.free
    && (forall k :: k in r.power <==> k in g.power || HostLabelled(dcName, hs, k))
    && (forall k :: k in r.connection <==> k in g.connection || HostLabelled(dcName, hs, k))
    && (forall k, j :: LastHost(dcName, hs, k, j) ==>
          && k in r.power && r.power[k] == OnOff(hs[j].powerState, PoweredOn)
          && k in r.connection && r.connection[k] == OnOff(hs[j].connectionState, Connected))
    && (forall k :: k in g.power && !HostLabelled(dcName, hs, k) ==> k in r.power && r.power[k] == g.power[k])
    && (forall k :: k in g.connection && !HostLabelled(dcName, hs, k) ==> k in r.connection && r.connection[k] == g.connection[k])
  }

  /**
   * The datastore loop: for each record in order, set capacity and free space
   * under (dcName, name, type).
   */
  function SetDatastores(g: Gauges, dcName: string, ds: seq<V.Datastore>): (r: Gauges)
    ensures r.power == g.power && r.connection == g.connection
    decreases |ds|
  {
    if ds == [] then g
    else
      var before := SetDatastores(g, dcName, ds[..|ds| - 1]);
      var v := ds[|ds| - 1];
      var k := DatastoreKey(dcName, v);
      before.(capacity := before.capacity[k := v.capacity], free := before.free[k := v.freeSpace])
  }

  /**
   * The host loop: for each record in order, set the power gauge (1 iff
   * POWERED_ON) and the connection gauge (1 iff CONNECTED) under (dcName, name).
   */
  function SetHosts(g: Gauges, dcName: string, hs: seq<V.Host>): (r: Gauges)
    ensures r.capacity == g.capacity && r.free == g.free
    decreases |hs|
  {
    if hs == [] then g
    else
      var before := SetHosts(g, dcName, hs[..|hs| - 1]);
      var h := hs[|hs| - 1];
      var k := HostKey(dcName, h);
      before.(power := before.power[k := OnOff(h.powerState, PoweredOn)],
              connection := before.connection[k := OnOff(h.connectionState, Connected)])
  }

  /** The datastore loop writes each label set's last record, and nothing else. */
  lemma {:induction false} SetDatastoresWrites(g: Gauges, dcName: string, ds: seq<V.Datastore>)
    ensures DatastoresWritten(g, dcName, ds, SetDatastores(g, dcName, ds))
    decreases |ds|
  {
    if ds != [] {
      var pre := ds[..|ds| - 1];
      var last := |ds| - 1;
      SetDatastoresWrites(g, dcName, pre);
      var key := DatastoreKey(dcName, ds[last]);
      forall k ensures DatastoreLabelled(dcName, ds, k) <==> DatastoreLabelled(dcName, pre, k) || k == key {
        if DatastoreLabelled(dcName, ds, k) && k != key {
          var j :| 0 <= j < |ds| && DatastoreKey(dcName, ds[j]) == k;
          assert j < last && pre[j] == ds[j];
        }
        if DatastoreLabelled(dcName, pre, k) {
          var j :| 0 <= j < |pre| && DatastoreKey(dcName, pre[j]) == k;
          assert ds[j] == pre[j];
        }
      }
      forall k, j | LastDatastore(dcName, ds, k, j) && j < last
        ensures LastDatastore(dcName, pre, k, j) && k != key
      {
        assert forall j' :: j < j' < |pre| ==> pre[j'] == ds[j'];
      }
    }
  }

  /** The host loop writes each host name's last record, and nothing else. */
  lemma {:induction false} SetHostsWrites(g: Gauges, dcName: string, hs: seq<V.Host>)
    ensures HostsWritten(g, dcName, hs, SetHosts(g, dcName, hs))
    decreases |hs|
  {
    if hs != [] {
      var pre := hs[..|hs| - 1];
      var last := |hs| - 1;
      SetHostsWrites(g, dcName, pre);
      var key := HostKey(dcName, hs[last]);
      forall k ensures HostLabelled(dcName, hs, k) <==> HostLabelled(dcName, pre, k) || k == key {
        if HostLabelled(dcName, hs, k) && k != key {
          var j :| 0 <= j < |hs| && HostKey(dcName, hs[j]) == k;
          assert j < last && pre[j] == hs[j];
        }
        if HostLabelled(dcName, pre, k) {
          var j :| 0 <= j < |pre| && HostKey(dcName, pre[j]) == k;
          assert hs[j] == pre[j];
        }
      }
      forall k, j | LastHost(dcName, hs, k, j) && j < last
        ensures LastHost(dcName, pre, k, j) && k != key
      {
        assert forall j' :: j < j' < |pre| ==> pre[j'] == hs[j'];
      }
    }
  }

  /**
   * `Handler`'s decisions, given what each client call returns: validate
   * `target` then `dc`; authenticate; fetch datacenters, datastores (writing
   * their gauges), hosts (writing theirs); log out; expose the gauges. The
   * first error ends the request with a 400 and no logout. `vcenterDC[0]` is
   * read inside each loop body, so an empty datacenter list panics as soon as
   * a loop has a record to write. A call the handler does not reach is not
   * in the trace and its result is ignored.
   */
  function Handle(q: Query, auth: V.Call<string>, dcs: V.Call<seq<V.VcenterDatacenter>>,
                  ds: V.Call<seq<V.Datastore>>, hs: V.Call<seq<V.Host>>, logout: Option<V.Request>): ProbeResult
  {
    if q.target == "" then ProbeResult(BadRequest(TargetMissing), [])
    else if q.dc == "" then ProbeResult(BadRequest(DcMissing), [])
    else
      var t1 := [Step(Authenticate, auth.sent, auth.err)];
      if auth.err.Some? then ProbeResult(BadRequest(auth.err.value), t1)
      else
        var t2 := t1 + [Step(GetDatacenter, dcs.sent, dcs.err)];
        if dcs.err.Some? then ProbeResult(BadRequest(dcs.err.value), t2)
        else
          var t3 := t2 + [Step(GetDatastores, ds.sent, ds.err)];
          if ds.err.Some? then ProbeResult(BadRequest(ds.err.value), t3)
          else if |ds.value| > 0 && |dcs.value| == 0 then ProbeResult(IndexOutOfRange(0, 0), t3)
          else
            var g1 := if |ds.value| == 0 then NoGauges else SetDatastores(NoGauges, dcs.value[0].name, ds.value);
            var t4 := t3 + [Step(GetHosts, hs.sent, hs.err)];
            if hs.err.Some? then ProbeResult(BadRequest(hs.err.value), t4)
            else if |hs.value| > 0 && |dcs.value| == 0 then ProbeResult(IndexOutOfRange(0, 0), t4)
            else
              var g2 := if |hs.value| == 0 then g1 else SetHosts(g1, dcs.value[0].name, hs.value);
              ProbeResult(Metrics(g2), t4 + [Step(LogOut, logout, None)])
  }

  /**
   * `Handler` against the client model: the client is built from the query
   * and the credentials, and every call after Authenticate is handed the
   * token Authenticate returned.
   */
  function Probe(q: Query, cfg: Config, net: V.Network): ProbeResult {
    var m := ClientModel(q, cfg);
    var auth := V.Authenticate(m, net);
    Handle(q, auth, V.GetDatacenter(m, auth.value, net), V.GetDatastores(m, auth.value, net),
           V.GetHosts(m, auth.value, net), V.LogOut(m, auth.value, net))
  }
}
