/** The request handlers of lib/dram_utils/api.rb (class DramUtils::API):
    the address-family table, `/dns`, `/http_ping`, `/whois` with its
    process-wide memo cache, and the `not_found` handler. The network calls
    (`TCPSocket.gethostbyname`, `Net::Ping::HTTP#ping`, `Whois.whois`) and the
    `url` helper are parameters: functions from the host to what they return. */
module Api {
  import opened Common
  import opened Errors

  // ---------------------------------------------------------------------
  // AF_TABLE: family code -> constant name
  // ---------------------------------------------------------------------

  /** One entry of `Socket.constants`: its name and its integer value. */
  datatype SocketConstant = SocketConstant(name: string, value: int)

  /** `x.to_s[0..2] == "AF_"`: Ruby's slice stops at the end of a name shorter
      than three characters, and such a shorter slice fails the comparison. */
  predicate IsAfName(name: string): (b: bool)
    ensures b <==> name[..if |name| < 3 then |name| else 3] == "AF_"
  {
    StartsWith(name, "AF_")
  }

  /** `constants.select { AF_ name }.map { [value, name] }.to_h`; when two
      selected constants share a value, `to_h` keeps the later one. */
  function AfTable(constants: seq<SocketConstant>): (table: map<int, string>)
    ensures forall v :: v in table ==> IsAfName(table[v])
    ensures |table| <= |constants|
    decreases |constants|
  {
    if constants == [] then map[]
    else
      var table := AfTable(constants[..|constants| - 1]);
      var c := constants[|constants| - 1];
      if IsAfName(c.name) then table[c.value := c.name] else table
  }

  /** Every entry of the table names an `AF_` constant with that value, and
      no later `AF_` constant has the same value. */
  lemma {:induction false} AfTableSound(constants: seq<SocketConstant>, v: int)
    requires v in AfTable(constants)
    ensures IsAfName(AfTable(constants)[v])
    ensures exists i ::
              0 <= i < |constants| && constants[i] == SocketConstant(AfTable(constants)[v], v) &&
              forall k :: i < k < |constants| && IsAfName(constants[k].name) ==> constants[k].value != v
    decreases |constants|
  {
    var n := |constants|;
    var init := constants[..n - 1];
    var c := constants[n - 1];
    if IsAfName(c.name) && c.value == v {
      assert constants[n - 1] == SocketConstant(AfTable(constants)[v], v);
    } else {
      assert AfTable(constants) == AfTable(init) || AfTable(constants) == AfTable(init)[c.value := c.name];
      AfTableSound(init, v);
      var i :| 0 <= i < |init| && init[i] == SocketConstant(AfTable(init)[v], v) &&
        forall k :: i < k < |init| && IsAfName(init[k].name) ==> init[k].value != v;
      assert constants[i] == init[i];
      forall k | i < k < n && IsAfName(constants[k].name)
        ensures constants[k].value != v
      {
        if k < n - 1 {
          assert constants[k] == init[k];
        }
      }
    }
  }

  /** Every `AF_` constant's value is a key of the table. */
  lemma {:induction false} AfTableComplete(constants: seq<SocketConstant>, i: int)
    requires 0 <= i < |constants| && IsAfName(constants[i].name)
    ensures constants[i].value in AfTable(constants)
    decreases |constants|
  {
    var n := |constants|;
    if i < n - 1 {
      var init := constants[..n - 1];
      assert init[i] == constants[i];
      AfTableComplete(init, i);
    }
  }

  /** An `AF_` constant that no later `AF_` constant shadows is what the table
      holds for its value. */
  lemma {:induction false} AfTableLastWins(constants: seq<SocketConstant>, i: int)
    requires 0 <= i < |constants| && IsAfName(constants[i].name)
    requires forall k :: i < k < |constants| && IsAfName(constants[k].name) ==> constants[k].value != constants[i].value
    ensures constants[i].value in AfTable(constants)
    ensures AfTable(constants)[constants[i].value] == constants[i].name
    decreases |constants|
  {
    var n := |constants|;
    if i < n - 1 {
      var init := constants[..n - 1];
      assert init[i] == constants[i];
      forall k | i < k < |init| && IsAfName(init[k].name)
        ensures init[k].value != init[i].value
      {
        assert init[k] == constants[k];
      }
      AfTableLastWins(init, i);
    }
  }

  // ---------------------------------------------------------------------
  // GET /dns
  // ---------------------------------------------------------------------

  /** What `TCPSocket.gethostbyname` returns, destructured as
      `cname, aliases, af, ip6, ip4 = info`: the two address slots are
      positional (nothing checks which family each one holds) and are `nil`
      when the resolver returned fewer addresses. */
  datatype HostInfo = HostInfo(cname: string, aliases: seq<string>, family: int,
                               ip6: Option<string>, ip4: Option<string>)

  /** The success body of `/dns`. */
  datatype DnsRecord = DnsRecord(status: string, cname: string, aliases: seq<string>,
                                 af: string, ips: seq<string>)

  /** The family test `AF_TABLE[family].start_with? "AF_INET"`: the name is
      `AF_INET` followed by some suffix. */
  predicate IsInetFamily(name: string): (b: bool)
    ensures b <==> |name| >= 7 && name == "AF_INET" + name[7..]
  {
    StartsWith(name, "AF_INET")
  }

  /** The prefix test accepts `AF_INET` followed by anything (so both IP
      families pass) and rejects every name whose first seven characters are
      not `AF_INET`, such as a link-layer family. */
  lemma InetFamilies(suffix: string, name: string)
    ensures IsInetFamily("AF_INET" + suffix)
    ensures |name| < 7 || name[..7] != "AF_INET" ==> !IsInetFamily(name)
    ensures IsInetFamily("AF_INET") && IsInetFamily("AF_INET6")
    ensures !IsInetFamily("AF_UNIX") && !IsInetFamily("AF_PACKET") && !IsInetFamily("AF_INE")
  {
    assert ("AF_INET" + suffix)[..7] == "AF_INET";
    assert "AF_INET6"[..7] == "AF_INET";
    assert "AF_UNIX"[..7] != "AF_INET" by { assert "AF_UNIX"[3] != "AF_INET"[3]; }
    assert "AF_PACKET"[..7] != "AF_INET" by { assert "AF_PACKET"[3] != "AF_INET"[3]; }
  }

  /** The address list the DNS route answers with, given the two slots: at
      most two entries, the first slot first, a `nil` slot contributes
      nothing, exactly the present addresses occur and none twice. */
  ghost predicate IpsOf(ip6: Option<string>, ip4: Option<string>, ips: seq<string>) {
    |ips| <= 2 &&
    (ip6.Some? ==> |ips| > 0 && ips[0] == ip6.value) &&
    (forall x :: x in ips <==> ip6 == Some(x) || ip4 == Some(x)) &&
    NoDuplicates(ips)
  }

  /** IpsOf leaves no freedom: it pins the list down in each of the four
      cases of the two slots. */
  lemma IpsCases(ip6: Option<string>, ip4: Option<string>, ips: seq<string>)
    requires IpsOf(ip6, ip4, ips)
    ensures ip6.None? && ip4.None? ==> ips == []
    ensures ip6.None? && ip4.Some? ==> ips == [ip4.value]
    ensures ip6.Some? && (ip4.None? || ip4 == ip6) ==> ips == [ip6.value]
    ensures ip6.Some? && ip4.Some? && ip4 != ip6 ==> ips == [ip6.value, ip4.value]
  {
    DistinctCount(ips);
    var present := set x | x in ips;
    if ip6.None? && ip4.None? {
      assert present == {};
    } else if ip6.None? {
      assert present == {ip4.value};
      assert ips[0] in ips;
    } else if ip4.None? || ip4 == ip6 {
      assert present == {ip6.value};
    } else {
      assert present == {ip6.value, ip4.value};
      assert ips[1] in ips;
    }
  }

  /** `ips = []; ips << ip6 if ip6; ips << ip4 if ip4 and ip6 != ip4`. */
  method CollectIps(ip6: Option<string>, ip4: Option<string>) returns (ips: seq<string>)
    ensures IpsOf(ip6, ip4, ips)
  {
    ips := [];
    if ip6.Some? {
      ips := ips + [ip6.value];
    }
    if ip4.Some? && ip6 != ip4 {
      ips := ips + [ip4.value];
    }
  }

  /** GET /dns. A failed resolution stops the request before the family is
      looked at; a resolved family whose name is not an `AF_INET` one stops it
      before any success body is built. The family code must be in the table:
      the route would otherwise fail on `nil.start_with?`. */
  method Dns(params: map<string, string>, resolve: string -> Option<HostInfo>, table: map<int, string>)
    returns (r: Handled<DnsRecord>)
    requires "host" in params && resolve(params["host"]).Some? ==> resolve(params["host"]).value.family in table
    ensures "host" !in params ==> r == Halted(BadRequest, MissingParam("host"))
    ensures "host" in params && resolve(params["host"]).None? ==> r == Halted(BadRequest, DnsLookup)
    ensures "host" in params && resolve(params["host"]).Some? ==>
      var info := resolve(params["host"]).value;
      (r.Ok? <==> IsInetFamily(table[info.family])) &&
      (r.Halted? ==> r == Halted(BadRequest, DnsWrongAF)) &&
      (r.Ok? ==>
         r.value.status == "success" && r.value.cname == info.cname && r.value.aliases == info.aliases &&
         r.value.af == table[info.family] && IpsOf(info.ip6, info.ip4, r.value.ips))
  {
    var host :- RequiredParam(params, "host");
    var lookup := resolve(host);
    if lookup.None? {
      r := HaltWith(ClassArg(DnsLookupError));
      return;
    }
    var info := lookup.value;
    if !IsInetFamily(table[info.family]) {
      r := HaltWith(ClassArg(DnsWrongAFError));
      return;
    }
    var ips := CollectIps(info.ip6, info.ip4);
    r := Ok(DnsRecord("success", info.cname, info.aliases, table[info.family], ips));
  }

  // ---------------------------------------------------------------------
  // GET /http_ping
  // ---------------------------------------------------------------------

  /** The probe timeout, in seconds, set before pinging. */
  const PingTimeout: int := 3

  /** What `p.ping` does: answers true or false, or raises. */
  datatype ProbeResult = Answered(reachable: bool) | ProbeRaised

  /** The success body of `/http_ping`, without the library's `duration`. */
  datatype PingRecord = PingRecord(status: string, result: bool)

  /** GET /http_ping. `probe(host, timeout)` stands for `Net::Ping::HTTP`;
      a raised probe is absorbed into `result: false`, so the route never
      answers with an error once the host parameter is there. */
  function HttpPing(params: map<string, string>, probe: (string, int) -> ProbeResult): (r: Handled<PingRecord>)
    ensures "host" !in params ==> r == Halted(BadRequest, MissingParam("host"))
    ensures "host" in params ==> r.Ok? && r.value.status == "success"
    ensures "host" in params ==>
      (r.value.result <==> probe(params["host"], PingTimeout) == Answered(true))
    ensures "host" in params && probe(params["host"], PingTimeout).ProbeRaised? ==> !r.value.result
  {
    var host :- RequiredParam(params, "host");
    var result := match probe(host, PingTimeout)
      case Answered(ok) => ok
      case ProbeRaised => false;
    Ok(PingRecord("success", result))
  }

  // ---------------------------------------------------------------------
  // GET /whois and WHOIS_CACHE
  // ---------------------------------------------------------------------

  /** What `Whois.whois(host)` left: its record, or the exception it raised.
      Both are what the cache stores, and both are truthy in Ruby, so `||=`
      never recomputes a present entry. */
  datatype Outcome = Record(text: string) | Failed(exc: Exception)

  /** The exception an outcome carries, if any. */
  function RaisedBy(o: Outcome): Option<Exception> {
    match o
    case Record(_) => None
    case Failed(exc) => Some(exc)
  }

  /** `"#{w}"`: the record's text, or for a stored exception only its message
      (`Exception#to_s`), without the class line the fresh-failure page has. */
  function Display(w: Outcome): (s: string)
    ensures w.Record? ==> s == w.text
    ensures w.Failed? ==> s == w.exc.message && Contains(ErrorPage(w.exc), s)
  {
    match w
    case Record(text) => text
    case Failed(exc) => exc.message
  }

  /** What `/whois` answers with: an HTML fragment (the `see` mode) or the
      success body `{status, url}`. */
  datatype WhoisPage = Pre(html: string) | SeeUrl(status: string, url: string)

  /** A preformatted block, with or without a final newline. */
  predicate Preformatted(html: string) {
    StartsWith(html, "<pre>") && (EndsWith(html, "</pre>") || EndsWith(html, "</pre>\n"))
  }

  /** The `see` rendering of an exception raised by this very request. */
  function ErrorPage(err: Exception): (html: string)
    ensures Preformatted(html)
    ensures Contains(html, "ERROR: " + err.className) && Contains(html, err.message)
  {
    var heading := "ERROR: " + err.className;
    var body := "\n" + heading + "\n          " + err.message + "\n";
    ContainsItself(heading);
    ContainsPrepended("\n", heading, heading);
    ContainsAppended("\n" + heading, "\n          ", heading);
    ContainsAppended("\n" + heading + "\n          ", err.message, heading);
    ContainsAppended("\n" + heading + "\n          " + err.message, "\n", heading);
    SplicedPart("\n" + heading + "\n          ", err.message, "\n");
    SplicedPart("<pre>", body, "</pre>\n");
    ContainsPrepended("<pre>", body, heading);
    ContainsAppended("<pre>" + body, "</pre>\n", heading);
    ContainsPrepended("<pre>", body, err.message);
    ContainsAppended("<pre>" + body, "</pre>\n", err.message);
    "<pre>" + body + "</pre>\n"
  }

  /** Lines 119-137: the response, given the value `w` bound from the cache,
      the exception `err` bound by this request's `rescue` (if any), whether
      `see` is present and the link to the `see` view. The `see` mode never
      stops the request; otherwise an exception stops it with WhoisError and
      its absence yields the link. */
  function Respond(w: Outcome, err: Option<Exception>, see: bool, url: string): (r: Handled<WhoisPage>)
    ensures see ==> r.Ok? && r.value.Pre? && Preformatted(r.value.html)
    ensures see && err.Some? ==>
      Contains(r.value.html, "ERROR: " + err.value.className) && Contains(r.value.html, err.value.message)
    ensures see && err.None? ==> r.value.html == "<pre>" + Display(w) + "</pre>"
    ensures !see ==> (r.Halted? <==> err.Some?)
    ensures !see && err.Some? ==> r == Halted(BadRequest, WhoisFailed(err.value))
    ensures !see && err.None? ==> r == Ok(SeeUrl("success", url))
  {
    if see then
      if err.Some? then Ok(Pre(ErrorPage(err.value)))
      else
        SplicedPart("<pre>", Display(w), "</pre>");
        Ok(Pre("<pre>" + Display(w) + "</pre>"))
    else if err.Some? then HaltWith(InstanceArg(WhoisFailed(err.value)))
    else Ok(SeeUrl("success", url))
  }

  /** WHOIS_CACHE, the process-wide hash from the raw `host` string to the
      outcome of its lookup, with `queried`: the hosts for which a network
      lookup was issued, in order. No entry is ever evicted. */
  class WhoisCache {
    var entries: map<string, Outcome>
    ghost var queried: seq<string>

    /** A host has an entry exactly when it was looked up, and no host was
        looked up twice. */
    ghost predicate Valid()
      reads this
    {
      (forall h :: h in entries <==> h in queried) && NoDuplicates(queried)
    }

    constructor ()
      ensures Valid() && entries == map[] && queried == []
    {
      entries := map[];
      queried := [];
    }

    /** Line 117, `w = WHOIS_CACHE[host] ||= (Whois.whois(host) rescue err = $!)`.
        A hit performs no lookup, leaves the cache alone and leaves `err`
        nil, even when the stored outcome is an exception. A miss performs
        exactly one lookup, stores its outcome (an exception included) under
        `host` and nowhere else, and binds `err` to the exception, if any. */
    method Fetch(host: string, whois: string -> Outcome) returns (w: Outcome, err: Option<Exception>)
      requires Valid()
      modifies this
      ensures Valid()
      ensures host in old(entries) ==>
        entries == old(entries) && queried == old(queried) && w == old(entries)[host] && err == None
      ensures host !in old(entries) ==>
        entries == old(entries)[host := whois(host)] && queried == old(queried) + [host] &&
        w == whois(host) && err == RaisedBy(w)
    {
      if host in entries {
        w, err := entries[host], None;
      } else {
        w := whois(host);
        err := RaisedBy(w);
        entries := entries[host := w];
        queried := queried + [host];
      }
    }

    /** GET /whois: `required_param :host`, the cache step of Fetch, then the
        response of Respond with `see` present and the `see` link of the host. */
    method Whois(params: map<string, string>, whois: string -> Outcome, link: string -> string)
      returns (r: Handled<WhoisPage>)
      requires Valid()
      modifies this
      ensures Valid()
      ensures "host" !in params ==>
        r == Halted(BadRequest, MissingParam("host")) && entries == old(entries) && queried == old(queried)
      ensures "host" in params && params["host"] in old(entries) ==>
        var host := params["host"];
        entries == old(entries) && queried == old(queried) &&
        r == Respond(old(entries)[host], None, "see" in params, link(host))
      ensures "host" in params && params["host"] !in old(entries) ==>
        var host := params["host"];
        entries == old(entries)[host := whois(host)] && queried == old(queried) + [host] &&
        r == Respond(whois(host), RaisedBy(whois(host)), "see" in params, link(host))
    {
      var host :- RequiredParam(params, "host");
      var w, err := Fetch(host, whois);
      r := Respond(w, err, "see" in params, link(host));
    }

    /** GET /whois with the exception taken from the cached outcome instead of
        from this request's `rescue`: a stored failure is reported the same
        way on every request, so the response depends only on the cached
        outcome of the host. */
    method WhoisRemembering(params: map<string, string>, whois: string -> Outcome, link: string -> string)
      returns (r: Handled<WhoisPage>)
      requires Valid()
      modifies this
      ensures Valid()
      ensures "host" !in params ==>
        r == Halted(BadRequest, MissingParam("host")) && entries == old(entries) && queried == old(queried)
      ensures "host" in params ==>
        var host := params["host"];
        host in entries && entries[host] == (if host in old(entries) then old(entries)[host] else whois(host)) &&
        queried == (if host in old(entries) then old(queried) else old(queried) + [host]) &&
        r == Respond(entries[host], RaisedBy(entries[host]), "see" in params, link(host))
      ensures "host" in params ==>
        entries.Keys == old(entries.Keys) + {params["host"]} &&
        forall h :: h in old(entries) ==> entries[h] == old(entries)[h]
    {
      var host :- RequiredParam(params, "host");
      var w, _ := Fetch(host, whois);
      r := Respond(w, RaisedBy(w), "see" in params, link(host));
    }
  }

  /** Two identical requests in a row get the same answer from
      WhoisRemembering, and only the first may look the host up. */
  method RepeatedRequestAgrees(cache: WhoisCache, params: map<string, string>,
                               whois: string -> Outcome, link: string -> string)
    returns (first: Handled<WhoisPage>, second: Handled<WhoisPage>)
    requires cache.Valid()
    modifies cache
    ensures cache.Valid()
    ensures first == second
    ensures |cache.queried| <= |old(cache.queried)| + 1
  {
    first := cache.WhoisRemembering(params, whois, link);
    ghost var queriedBetween := cache.queried;
    second := cache.WhoisRemembering(params, whois, link);
    assert cache.queried == queriedBetween;
  }

  /** The route as written, on a fresh cache, for a host whose lookup raises
      `exc`: the first request stops with WhoisError, the second finds the
      exception in the cache with `err` nil and answers with the success link. */
  method FailureForgotten(host: string, exc: Exception, link: string -> string)
    returns (first: Handled<WhoisPage>, second: Handled<WhoisPage>)
    ensures first == Halted(BadRequest, WhoisFailed(exc))
    ensures second == Ok(SeeUrl("success", link(host)))
  {
    var cache := new WhoisCache();
    var params := map["host" := host];
    first := cache.Whois(params, _ => Failed(exc), link);
    second := cache.Whois(params, _ => Failed(exc), link);
  }

  /** The same two requests as FailureForgotten with `see` present: the first
      shows the error page with the class line, the second finds the
      exception in the cache and shows only its message. */
  method FailureForgottenSeen(host: string, exc: Exception, link: string -> string)
    returns (first: Handled<WhoisPage>, second: Handled<WhoisPage>)
    ensures first == Ok(Pre(ErrorPage(exc)))
    ensures second == Ok(Pre("<pre>" + exc.message + "</pre>"))
    ensures second != first
  {
    var cache := new WhoisCache();
    var params := map["host" := host, "see" := "true"];
    first := cache.Whois(params, _ => Failed(exc), link);
    second := cache.Whois(params, _ => Failed(exc), link);
  }

  /** The same two requests against WhoisRemembering: both stop with WhoisError. */
  method FailureRemembered(host: string, exc: Exception, link: string -> string)
    returns (first: Handled<WhoisPage>, second: Handled<WhoisPage>)
    ensures first == Halted(BadRequest, WhoisFailed(exc))
    ensures second == first
  {
    var cache := new WhoisCache();
    var params := map["host" := host];
    first := cache.WhoisRemembering(params, _ => Failed(exc), link);
    second := cache.WhoisRemembering(params, _ => Failed(exc), link);
  }

  // ---------------------------------------------------------------------
  // not_found
  // ---------------------------------------------------------------------

  /** `not_found { halt_with NotFoundError }`: any other path under the API
      stops with status 400 and the `not_found` envelope. */
  function NotFoundHandler<T>(): (r: Handled<T>)
    ensures r == Halted(BadRequest, NotFound)
    ensures Envelope(r.error).error.errorType == "not_found"
  {
    HaltWith(ClassArg(NotFoundError))
  }
}
