/**
 * The vCenter REST client (package `vcenter`): the record types the API
 * returns, the request each client method builds, and how each method turns
 * the transport's answer into Go's (value, error) pair.
 *
 * The network is not modelled: a `Network` value fixes, for one probe, what
 * `http.NewRequest` says about each URL and what `client.Do` yields for each
 * endpoint. JSON decoding is likewise given, as a `Decoded` value.
 */
module VCenter {
  import opened Basics
  import Utf8
  import Base64
  import GoStrings

  /** Go's `int64`. */
  type Int64 = x: int | -0x8000_0000_0000_0000 <= x < 0x8000_0000_0000_0000

  /** Connection settings of one client (Go's `vcenter.Model`). */
  datatype Model = Model(user: string, pass: string, host: string, port: string, dc: string)

  /** One element of the datastore listing; `kind` is the JSON field `type`. */
  datatype Datastore = Datastore(datastore: string, name: string, kind: string, freeSpace: Int64, capacity: Int64)

  /** One element of the host listing. */
  datatype Host = Host(host: string, name: string, connectionState: string, powerState: string)

  /** One element of the datacenter listing. */
  datatype VcenterDatacenter = VcenterDatacenter(name: string, datacenter: string)

  datatype Header = Header(name: string, value: string)

  /** A request as put on the wire: HTTP method (`verb`), URL and the one header the client sets. */
  datatype Request = Request(verb: string, url: string, header: Header)

  /** What `client.Do` yields: a transport error, or a status code and a body. */
  datatype Exchange<B> = TransportError(err: string) | Response(status: int, body: B)

  /**
   * What `json.Unmarshal` makes of a body: the records, or an error together
   * with whatever it had already stored in the slice.
   */
  datatype Decoded<T> = Decoded(records: seq<T>) | Malformed(partial: seq<T>, err: string)

  /** Everything outside the program that one probe's client calls depend on. */
  datatype Network = Network(
    newRequestError: string -> Option<string>,
    session: Exchange<string>,
    datacenters: Exchange<Decoded<VcenterDatacenter>>,
    datastores: Exchange<Decoded<Datastore>>,
    hosts: Exchange<Decoded<Host>>,
    logout: Exchange<()>)

  /** A client method's Go result pair `(value, err)`, with the request it sent (None when none was built). */
  datatype Call<T> = Call(sent: Option<Request>, value: T, err: Option<string>)

  const SessionPath: string := "/api/session"
  const DatacenterPath: string := "/api/vcenter/datacenter"
  const DatastorePath: string := "/api/vcenter/datastore"
  const HostPath: string := "/api/vcenter/host"
  const SessionHeader: string := "vmware-api-session-id"
  const AuthorizationHeader: string := "Authorization"

  /** `fmt.Sprintf("%s:%s", m.Host, m.Port)`. */
  function Addr(m: Model): string {
    m.host + ":" + m.port
  }

  function SessionUrl(m: Model): string {
    "https://" + Addr(m) + SessionPath
  }

  /** A listing URL: plain concatenation, the datacenter name is not escaped. */
  function FetchUrl(m: Model, path: string): string {
    "https://" + Addr(m) + path + "?datacenters=" + m.dc
  }

  /** `basicAuth`: standard Base64 of the UTF-8 bytes of `user:pass`. */
  function BasicAuth(user: string, pass: string): string {
    Base64.Encode(Utf8.Encode(user + ":" + pass))
  }

  /** `fmt.Errorf("http response error: %v", status)`. */
  function StatusError(status: int): string {
    StatusErrorPrefix + GoStrings.FormatInt(status)
  }

  const StatusErrorPrefix: string := "http response error: "

  /** `strings.Trim(sessionId, "\"")`: the session id with its surrounding quotes removed. */
  function SessionId(raw: string): string {
    GoStrings.Trim(raw, '"')
  }

  /** `(*Model).Authenticate`: POST the Basic credential; only 201 yields a token, the raw body. */
  function Authenticate(m: Model, net: Network): Call<string> {
    var url := SessionUrl(m);
    match net.newRequestError(url)
    case Some(e) => Call(None, "", Some(e))
    case None =>
      var req := Request("POST", url, Header(AuthorizationHeader, "Basic " + BasicAuth(m.user, m.pass)));
      match net.session
      case TransportError(e) => Call(Some(req), "", Some(e))
      case Response(status, body) =>
        if status != 201 then Call(Some(req), "", Some(StatusError(status)))
        else Call(Some(req), body, None)
  }

  /**
   * The body shared by `GetDatastores`, `GetDatacenter` and `GetHosts`: GET
   * the listing with the trimmed session id; only 200 is decoded.
   */
  function Fetch<T>(m: Model, path: string, sessionId: string, net: Network, reply: Exchange<Decoded<T>>): Call<seq<T>> {
    var url := FetchUrl(m, path);
    match net.newRequestError(url)
    case Some(e) => Call(None, [], Some(e))
    case None =>
      var req := Request("GET", url, Header(SessionHeader, SessionId(sessionId)));
      match reply
      case TransportError(e) => Call(Some(req), [], Some(e))
      case Response(status, body) =>
        if status != 200 then Call(Some(req), [], Some(StatusError(status)))
        else match body
          case Decoded(records) => Call(Some(req), records, None)
          case Malformed(partial, e) => Call(Some(req), partial, Some(e))
  }

  function GetDatastores(m: Model, sessionId: string, net: Network): Call<seq<Datastore>> {
    Fetch(m, DatastorePath, sessionId, net, net.datastores)
  }

  function GetDatacenter(m: Model, sessionId: string, net: Network): Call<seq<VcenterDatacenter>> {
    Fetch(m, DatacenterPath, sessionId, net, net.datacenters)
  }

  function GetHosts(m: Model, sessionId: string, net: Network): Call<seq<Host>> {
    Fetch(m, HostPath, sessionId, net, net.hosts)
  }

  /**
   * `(*Model).LogOut`: DELETE the session. It has no result: every way it can
   * end (no request built, transport error, any status) just returns; only
   * the request it sent is observable.
   */
  function LogOut(m: Model, sessionId: string, net: Network): Option<Request> {
    var url := SessionUrl(m);
    match net.newRequestError(url)
    case Some(_) => None
    case None =>
      var req := Request("DELETE", url, Header(SessionHeader, SessionId(sessionId)));
      match net.logout
      case TransportError(_) => Some(req)
      case Response(_, _) => Some(req)
  }
}
