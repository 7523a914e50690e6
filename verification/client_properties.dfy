/**
 * What the vCenter client promises, stated against independent partners:
 * Base64 and UTF-8 decoding for the Basic credential, decimal parsing for
 * the status error, the trim characterisation for the session id, and the
 * exact requests each method puts on the wire.
 */
module ClientProperties {
  import opened Basics
  import opened VCenter
  import Utf8
  import Base64
  import GoStrings

  /** How a server splits a Basic credential: at the first colon (section 2 of RFC 7617). */
  function SplitCredential(s: string): Option<(string, string)>
    decreases |s|
  {
    if s == [] then None
    else if s[0] == ':' then Some(([], s[1..]))
    else match SplitCredential(s[1..])
      case None => None
      case Some((u, p)) => Some(([s[0]] + u, p))
  }

  lemma {:induction false} SplitJoin(user: string, pass: string)
    requires ':' !in user
    ensures SplitCredential(user + ":" + pass) == Some((user, pass))
    decreases |user|
  {
    var s := user + ":" + pass;
    if user == [] {
      assert s == [':'] + pass;
    } else {
      assert s[0] == user[0];
      assert s[1..] == user[1..] + ":" + pass;
      SplitJoin(user[1..], pass);
      assert [user[0]] + user[1..] == user;
    }
  }

  /**
   * The Basic credential decodes back: Base64 decoding yields the UTF-8 bytes
   * of `user:pass`, UTF-8 decoding yields the text, and splitting at the first
   * colon yields the user and password whenever the user has no colon.
   */
  lemma BasicAuthRoundTrip(user: string, pass: string)
    ensures Base64.Decode(BasicAuth(user, pass)) == Some(Utf8.Encode(user + ":" + pass))
    ensures Utf8.Decode(Utf8.Encode(user + ":" + pass)) == Some(user + ":" + pass)
    ensures ':' !in user ==> SplitCredential(user + ":" + pass) == Some((user, pass))
  {
    Base64.DecodeEncode(Utf8.Encode(user + ":" + pass));
    Utf8.DecodeEncode(user + ":" + pass);
    if ':' !in user {
      SplitJoin(user, pass);
    }
  }

  /** Colon-free users with different credentials never share a Basic credential. */
  lemma BasicAuthInjective(user: string, pass: string, user': string, pass': string)
    requires ':' !in user && ':' !in user'
    requires BasicAuth(user, pass) == BasicAuth(user', pass')
    ensures user == user' && pass == pass'
  {
    BasicAuthRoundTrip(user, pass);
    BasicAuthRoundTrip(user', pass');
  }

  /** Number of bytes `[]byte(user + ":" + pass)` has. */
  function CredentialLength(user: string, pass: string): nat {
    |Utf8.Encode(user)| + 1 + |Utf8.Encode(pass)|
  }

  /**
   * Shape of the Basic credential for n = CredentialLength bytes: 4*ceil(n/3)
   * characters, alphabet characters followed by exactly the padding needed.
   */
  lemma BasicAuthShape(user: string, pass: string)
    ensures var s, n := BasicAuth(user, pass), CredentialLength(user, pass);
      && |s| == 4 * ((n + 2) / 3)
      && (forall i :: 0 <= i < |s| - Base64.PadCount(n) ==> Base64.IsAlphabet(s[i]))
      && (forall i :: |s| - Base64.PadCount(n) <= i < |s| ==> s[i] == Base64.Pad)
  {
    CredentialBytes(user, pass);
    Base64.EncodeShape(Utf8.Encode(user + ":" + pass));
  }

  lemma CredentialBytes(user: string, pass: string)
    ensures |Utf8.Encode(user + ":" + pass)| == CredentialLength(user, pass)
  {
    Utf8.EncodeAppend(user + ":", pass);
    Utf8.EncodeAppend(user, ":");
    Utf8.EncodeAscii(":");
  }

  /** The status error names the status: after its fixed prefix comes the code in decimal. */
  lemma StatusErrorCarriesCode(status: int)
    ensures StatusErrorPrefix <= StatusError(status)
    ensures GoStrings.ParseInt(StatusError(status)[|StatusErrorPrefix|..]) == Some(status)
  {
    GoStrings.ParseFormat(status);
    assert StatusError(status)[|StatusErrorPrefix|..] == GoStrings.FormatInt(status);
  }

  /** `Authenticate` sends exactly one POST carrying `Basic <credential>`, when the URL is accepted. */
  lemma AuthenticateRequest(m: Model, net: Network)
    ensures var a := Authenticate(m, net);
      && (a.sent.Some? <==> net.newRequestError(SessionUrl(m)).None?)
      && (a.sent.Some? ==> a.sent.value == Request("POST", "https://" + m.host + ":" + m.port + "/api/session",
                                                  Header("Authorization", "Basic " + BasicAuth(m.user, m.pass))))
  {
    SessionUrlSpelledOut(m);
  }

  /**
   * `Authenticate` succeeds exactly on status 201 and then returns the body
   * as it came, quotes included; otherwise it returns "" and an error, which
   * for a response with another status is the status error.
   */
  lemma AuthenticateStatusRule(m: Model, net: Network)
    ensures var a, urlOk := Authenticate(m, net), net.newRequestError(SessionUrl(m)).None?;
      && (a.err.None? <==> urlOk && net.session.Response? && net.session.status == 201)
      && (a.err.None? ==> a.value == net.session.body)
      && (a.err.Some? ==> a.value == "")
      && (urlOk && net.session.Response? && net.session.status != 201 ==> a.err == Some(StatusError(net.session.status)))
      && (!urlOk ==> a.err == net.newRequestError(SessionUrl(m)))
      && (urlOk && net.session.TransportError? ==> a.err == Some(net.session.err))
  {
  }

  /**
   * Every listing call succeeds exactly on status 200 with a decodable body,
   * and then yields the decoded records; any other status yields no records
   * and the status error; a decode failure yields the decoder's error.
   */
  lemma FetchStatusRule<T>(m: Model, path: string, sessionId: string, net: Network, reply: Exchange<Decoded<T>>)
    ensures var c, urlOk := Fetch(m, path, sessionId, net, reply), net.newRequestError(FetchUrl(m, path)).None?;
      && (c.err.None? <==> urlOk && reply.Response? && reply.status == 200 && reply.body.Decoded?)
      && (c.err.None? ==> c.value == reply.body.records)
      && (urlOk && reply.Response? && reply.status != 200 ==> c.err == Some(StatusError(reply.status)) && c.value == [])
      && (c.value != [] ==> urlOk && reply.Response? && reply.status == 200)
      && (urlOk && reply.Response? && reply.status == 200 && reply.body.Malformed? ==> c.err == Some(reply.body.err))
      && (!urlOk ==> c.err == net.newRequestError(FetchUrl(m, path)) && c.value == [])
  {
  }

  /**
   * Every listing call sends one GET to `https://<host>:<port><path>?datacenters=<dc>`,
   * the datacenter name pasted in unescaped, carrying the trimmed session id.
   */
  lemma FetchRequest<T>(m: Model, path: string, sessionId: string, net: Network, reply: Exchange<Decoded<T>>)
    ensures var c := Fetch(m, path, sessionId, net, reply);
      && (c.sent.Some? <==> net.newRequestError(FetchUrl(m, path)).None?)
      && (c.sent.Some? ==> c.sent.value == Request("GET", "https://" + m.host + ":" + m.port + path + "?datacenters=" + m.dc,
                                                  Header("vmware-api-session-id", GoStrings.Trim(sessionId, '"'))))
  {
    var c := Fetch(m, path, sessionId, net, reply);
    FetchUrlSpelledOut(m, path);
    if net.newRequestError(FetchUrl(m, path)).None? {
      assert c.sent == Some(Request("GET", FetchUrl(m, path), Header(SessionHeader, SessionId(sessionId))));
    }
  }

  lemma FetchUrlSpelledOut(m: Model, path: string)
    ensures FetchUrl(m, path) == "https://" + m.host + ":" + m.port + path + "?datacenters=" + m.dc
  {
  }

  lemma SessionUrlSpelledOut(m: Model)
    ensures SessionUrl(m) == "https://" + m.host + ":" + m.port + "/api/session"
  {
  }

  /** The three listing methods use the three listing paths and their own replies. */
  lemma ListingPaths(m: Model, sessionId: string, net: Network)
    ensures GetDatacenter(m, sessionId, net) == Fetch(m, "/api/vcenter/datacenter", sessionId, net, net.datacenters)
    ensures GetDatastores(m, sessionId, net) == Fetch(m, "/api/vcenter/datastore", sessionId, net, net.datastores)
    ensures GetHosts(m, sessionId, net) == Fetch(m, "/api/vcenter/host", sessionId, net, net.hosts)
  {
  }

  /**
   * The URL each listing method puts on the wire: the address, then the
   * listing's fixed path and query, then the datacenter name as given.
   */
  lemma ListingUrls(m: Model, sessionId: string, net: Network)
    ensures var c := GetDatacenter(m, sessionId, net);
      c.sent.Some? ==> (c.sent.value.verb == "GET"
        && c.sent.value.url == "https://" + m.host + ":" + m.port + "/api/vcenter/datacenter?datacenters=" + m.dc)
    ensures var c := GetDatastores(m, sessionId, net);
      c.sent.Some? ==> (c.sent.value.verb == "GET"
        && c.sent.value.url == "https://" + m.host + ":" + m.port + "/api/vcenter/datastore?datacenters=" + m.dc)
    ensures var c := GetHosts(m, sessionId, net);
      c.sent.Some? ==> (c.sent.value.verb == "GET"
        && c.sent.value.url == "https://" + m.host + ":" + m.port + "/api/vcenter/host?datacenters=" + m.dc)
  {
    ListingPaths(m, sessionId, net);
    ListingUrl(m, DatacenterPath, sessionId, net, net.datacenters, "/api/vcenter/datacenter?datacenters=");
    ListingUrl(m, DatastorePath, sessionId, net, net.datastores, "/api/vcenter/datastore?datacenters=");
    ListingUrl(m, HostPath, sessionId, net, net.hosts, "/api/vcenter/host?datacenters=");
  }

  lemma ListingUrl<T>(m: Model, path: string, sessionId: string, net: Network, reply: Exchange<Decoded<T>>, query: string)
    requires query == path + "?datacenters="
    ensures var c := Fetch(m, path, sessionId, net, reply);
      c.sent.Some? ==> c.sent.value.verb == "GET" && c.sent.value.url == "https://" + m.host + ":" + m.port + query + m.dc
  {
    var base := "https://" + m.host + ":" + m.port;
    FetchRequest(m, path, sessionId, net, reply);
    assert base + path + "?datacenters=" == base + query;
  }

  /**
   * The session id sent is the raw token with its leading and trailing quotes
   * cut off and nothing else: a contiguous piece of it (inner quotes kept),
   * neither starting nor ending with a quote, the only such piece; and
   * trimming again changes nothing.
   */
  lemma SessionIdTrim(raw: string, r: string)
    ensures GoStrings.IsTrimmed(raw, '"', r) <==> r == SessionId(raw)
    ensures SessionId(SessionId(raw)) == SessionId(raw)
  {
    GoStrings.TrimIsTrimmed(raw, '"');
    if GoStrings.IsTrimmed(raw, '"', r) {
      GoStrings.TrimmedIsTrim(raw, '"', r);
    }
    GoStrings.TrimIdempotent(raw, '"');
  }

  /**
   * `LogOut` reports nothing: what the server answers (transport error, any
   * status) changes nothing observable; it sends one DELETE with the trimmed
   * session id whenever the URL is accepted.
   */
  lemma LogOutSwallowsErrors(m: Model, sessionId: string, net: Network, reply: Exchange<()>)
    ensures LogOut(m, sessionId, net.(logout := reply)) == LogOut(m, sessionId, net)
    ensures var sent := LogOut(m, sessionId, net);
      && (sent.Some? <==> net.newRequestError(SessionUrl(m)).None?)
      && (sent.Some? ==> sent.value == Request("DELETE", "https://" + m.host + ":" + m.port + "/api/session",
                                              Header("vmware-api-session-id", SessionId(sessionId))))
  {
    SessionUrlSpelledOut(m);
  }
}
