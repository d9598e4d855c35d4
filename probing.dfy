// The escalating probe of one site: resolve, dial port 443, TLS handshake
// (retrying once under "www." + name), read the advertised protocols, fetch
// over HTTPS, then try a SPDY/3.1 and an HTTP/2 request. Every network call
// is an outcome supplied by a Network value.
module Probing {
  import opened Tristate
  import opened Strings
  import opened Sites

  const Spdy := "spdy/3.1"
  const H2 := "h2"

  /** What one protocol-specific request stage observes: the TLS dial
    * advertising only that protocol, the protocol the server then
    * negotiated, creating the client connection, and the GET over it. */
  datatype Upgrade = Upgrade(dialed: bool, negotiated: string, clientConn: bool, request: bool)

  /** The outcome of every network call a probe can make. Each call site runs
    * at most once per probe, so one value per call site: the name lookup,
    * the TCP dial to port 443, the TLS handshake under the input name and
    * its retry under "www." + name, the protocols the successful handshake
    * advertised, the HTTPS GET, and the two protocol-specific requests. */
  datatype Network = Network(
    lookup: bool,
    dial: bool,
    handshake: bool,
    retry: bool,
    offered: seq<string>,
    get: bool,
    spdy: Upgrade,
    h2: Upgrade)

  /** The name resolves and port 443 accepts a TCP connection. */
  predicate Reachable(net: Network)
  {
    net.lookup && net.dial
  }

  /** The name the site carries from the TLS stage on: "www." is prefixed
    * once the first handshake has failed, whatever the retry does. */
  function TlsName(n: string, net: Network): string
  {
    if Reachable(net) && !net.handshake then "www." + n else n
  }

  /** A TLS handshake succeeded, on the first try or on the retry. */
  predicate Secured(net: Network)
  {
    Reachable(net) && (net.handshake || net.retry)
  }

  /** The HTTPS GET succeeded, which the protocol-specific stages need. */
  predicate Fetched(net: Network)
  {
    Secured(net) && net.get
  }

  /** One protocol-specific request stage (SPDY/3.1 or HTTP/2), once it runs:
    * the dial, a negotiated protocol other than `proto`, or the client
    * connection can each fail, and are only logged; only a completed request
    * sets yesno, to its own outcome. */
  function Attempt(prior: Tri, u: Upgrade, proto: string): Tri
  {
    var started := prior.(ran := true);
    if !u.dialed then started
    else if u.negotiated != proto then started
    else if !u.clientConn then started
    else started.(yesno := u.request)
  }

  /** site.test, stated field by field: each stage's tri-state is rewritten
    * exactly when the stage before it let the probe get that far; a field
    * that is never reached, and a yesno the code never assigns, keeps its
    * prior value. */
  function Probe(r: Record, net: Network): Record
  {
    Record(
      name := TlsName(r.name, net),
      resolves := Tri(true, net.lookup),
      port443Open := if net.lookup then Tri(true, net.dial) else r.port443Open,
      tlsWorks := if Reachable(net) then Tri(true, Secured(net)) else r.tlsWorks,
      httpsWorks := if Secured(net) then Tri(true, net.get || r.httpsWorks.yesno) else r.httpsWorks,
      spdyAnnounced := if Secured(net) then Tri(true, Spdy in net.offered) else r.spdyAnnounced,
      http2Announced := if Secured(net) then Tri(true, H2 in net.offered) else r.http2Announced,
      spdyWorks := if Fetched(net) && Spdy in net.offered then Attempt(r.spdyWorks, net.spdy, Spdy) else r.spdyWorks,
      http2Works := if Fetched(net) && H2 in net.offered then Attempt(r.http2Works, net.h2, H2) else r.http2Works,
      npn := if Secured(net) then net.offered else r.npn)
  }

  /** The site record as the worker mutates it. */
  class Site {
    var name: string
    var resolves: Tri
    var port443Open: Tri
    var tlsWorks: Tri
    var httpsWorks: Tri
    var spdyAnnounced: Tri
    var http2Announced: Tri
    var spdyWorks: Tri
    var http2Works: Tri
    var npn: seq<string>

    /** The record's current value. */
    function Snapshot(): Record
      reads this
    {
      Record(name, resolves, port443Open, tlsWorks, httpsWorks,
             spdyAnnounced, http2Announced, spdyWorks, http2Works, npn)
    }

    /** &site{name: line}: every stage not run, no protocols. */
    constructor (name: string)
      ensures Snapshot() == Fresh(name)
    {
      this.name := name;
      resolves, port443Open, tlsWorks, httpsWorks := Unrun, Unrun, Unrun, Unrun;
      spdyAnnounced, http2Announced, spdyWorks, http2Works := Unrun, Unrun, Unrun, Unrun;
      npn := [];
    }

    /** Name resolution: always runs; the probe goes on only when the name resolves. */
    method Resolve(net: Network) returns (ok: bool)
      modifies this
      ensures ok == net.lookup
      ensures Snapshot() == old(Snapshot()).(resolves := Tri(true, net.lookup))
    {
      resolves := resolves.(ran := true);
      if !net.lookup {
        resolves := resolves.(yesno := false);
        return false;
      }
      resolves := resolves.(yesno := true);
      return true;
    }

    /** TCP dial to port 443; the probe goes on only when it connects. */
    method Dial(net: Network) returns (ok: bool)
      modifies this
      ensures ok == net.dial
      ensures Snapshot() == old(Snapshot()).(port443Open := Tri(true, net.dial))
    {
      port443Open := port443Open.(ran := true);
      if !net.dial {
        port443Open := port443Open.(yesno := false);
        return false;
      }
      port443Open := port443Open.(yesno := true);
      return true;
    }

    /** TLS handshake under the name, and after a failure under "www." + name,
      * which the site keeps; the probe goes on only when one succeeds. */
    method Handshake(net: Network) returns (ok: bool)
      modifies this
      ensures ok == (net.handshake || net.retry)
      ensures Snapshot() == old(Snapshot()).(name := if net.handshake then old(name) else "www." + old(name),
                                            tlsWorks := Tri(true, ok))
    {
      tlsWorks := tlsWorks.(ran := true);
      if !net.handshake {
        name := "www." + name;
        if !net.retry {
          tlsWorks := tlsWorks.(yesno := false);
          return false;
        }
      }
      tlsWorks := tlsWorks.(yesno := true);
      return true;
    }

    /** Records the advertised protocols and whether SPDY/3.1 and h2 are among them. */
    method Announce(net: Network)
      modifies this
      ensures Snapshot() == old(Snapshot()).(npn := net.offered,
                                            spdyAnnounced := Tri(true, Spdy in net.offered),
                                            http2Announced := Tri(true, H2 in net.offered))
    {
      npn := net.offered;
      spdyAnnounced := spdyAnnounced.(ran := true);
      var announced := In(net.offered, Spdy);
      spdyAnnounced := spdyAnnounced.(yesno := announced);
      http2Announced := http2Announced.(ran := true);
      announced := In(net.offered, H2);
      http2Announced := http2Announced.(yesno := announced);
    }

    /** GET over HTTPS; a failure leaves yesno as it was and stops the probe. */
    method Fetch(net: Network) returns (ok: bool)
      modifies this
      ensures ok == net.get
      ensures Snapshot() == old(Snapshot()).(httpsWorks := Tri(true, net.get || old(httpsWorks.yesno)))
    {
      httpsWorks := httpsWorks.(ran := true);
      if !net.get {
        return false;
      }
      httpsWorks := httpsWorks.(yesno := true);
      return true;
    }

    /** The SPDY/3.1 and then the HTTP/2 request, each only when announced. */
    method Request(net: Network)
      modifies this
      ensures Snapshot() == old(Snapshot()).(
        spdyWorks := if old(spdyAnnounced.yesno) then Attempt(old(spdyWorks), net.spdy, Spdy) else old(spdyWorks),
        http2Works := if old(http2Announced.yesno) then Attempt(old(http2Works), net.h2, H2) else old(http2Works))
    {
      if spdyAnnounced.yesno {
        spdyWorks := Attempt(spdyWorks, net.spdy, Spdy);
      }
      if http2Announced.yesno {
        http2Works := Attempt(http2Works, net.h2, H2);
      }
    }

    /** site.test: runs the stages in order, each marking its field as run
      * before its network call and recording the outcome after it; stops at
      * the first failure of resolution, TCP dial, TLS or the HTTPS GET. */
    method Test(net: Network)
      modifies this
      ensures Snapshot() == Probe(old(Snapshot()), net)
    {
      var ok := Resolve(net);
      if !ok {
        return;
      }
      ok := Dial(net);
      if !ok {
        return;
      }
      ok := Handshake(net);
      if !ok {
        return;
      }
      Announce(net);
      ok := Fetch(net);
      if !ok {
        return;
      }
      Request(net);
    }
  }

  /** yesno is set only on a stage that ran. */
  predicate Normal(t: Tri)
  {
    t.yesno ==> t.ran
  }

  /** The escalation invariant of a probed record: resolution always runs;
    * each later stage runs exactly when the stage gating it succeeded (the
    * request stages need both their announcement and the HTTPS GET); a
    * stage that did not run reads false; protocols are known only after TLS. */
  predicate Escalated(r: Record)
  {
    && r.resolves.ran
    && (r.port443Open.ran <==> r.resolves.yesno)
    && (r.tlsWorks.ran <==> r.port443Open.yesno)
    && (r.spdyAnnounced.ran <==> r.tlsWorks.yesno)
    && (r.http2Announced.ran <==> r.tlsWorks.yesno)
    && (r.httpsWorks.ran <==> r.tlsWorks.yesno)
    && (r.spdyWorks.ran <==> r.spdyAnnounced.yesno && r.httpsWorks.yesno)
    && (r.http2Works.ran <==> r.http2Announced.yesno && r.httpsWorks.yesno)
    && Normal(r.resolves) && Normal(r.port443Open) && Normal(r.tlsWorks) && Normal(r.httpsWorks)
    && Normal(r.spdyAnnounced) && Normal(r.http2Announced) && Normal(r.spdyWorks) && Normal(r.http2Works)
    && (!r.tlsWorks.yesno ==> r.npn == [])
  }

  /** The records probing the input name n can produce: escalated, named n
    * unless the first handshake failed (then "www." + n), and announcing a
    * protocol exactly when the advertised list holds it. */
  predicate Attainable(n: string, r: Record)
  {
    && Escalated(r)
    && ((r.name == n && (r.tlsWorks.ran ==> r.tlsWorks.yesno)) || (r.name == "www." + n && r.tlsWorks.ran))
    && (r.spdyAnnounced.ran ==> r.spdyAnnounced.yesno == (Spdy in r.npn))
    && (r.http2Announced.ran ==> r.http2Announced.yesno == (H2 in r.npn))
  }

  /** Every probe of a fresh record ends in an attainable, hence escalated, record. */
  lemma ProbeAttainable(n: string, net: Network)
    ensures Attainable(n, Probe(Fresh(n), net))
    ensures Escalated(Probe(Fresh(n), net))
  {
  }

  /** Conversely, every attainable record is what some network makes of the fresh record. */
  lemma AttainableIsReached(n: string, r: Record)
    requires Attainable(n, r)
    ensures exists net :: Probe(Fresh(n), net) == r
  {
    assert n != "www." + n by {
      assert |"www." + n| == |n| + 4;
    }
    var net := Network(r.resolves.yesno, r.port443Open.yesno, r.name == n, r.tlsWorks.yesno, r.npn,
                       r.httpsWorks.yesno, Upgrade(true, Spdy, true, r.spdyWorks.yesno),
                       Upgrade(true, H2, true, r.http2Works.yesno));
    assert Probe(Fresh(n), net) == r;
  }

  /** A name that does not resolve: f, then seven stages not run, no protocols. */
  lemma ResolutionFailure(n: string, net: Network)
    requires !net.lookup
    ensures Columns(Probe(Fresh(n), net)) == [n, "f", "-", "-", "-", "-", "-", "-", "-", ""]
  {
  }

  /** Port 443 closed: t, f, then six stages not run, no protocols. */
  lemma DialFailure(n: string, net: Network)
    requires net.lookup && !net.dial
    ensures Columns(Probe(Fresh(n), net)) == [n, "t", "f", "-", "-", "-", "-", "-", "-", ""]
  {
  }

  /** The name changes at the TLS stage exactly when the first handshake
    * fails, and then to "www." + n whether or not the retry succeeds. */
  lemma RenameOnce(n: string, net: Network)
    ensures Reachable(net) && net.handshake ==> Probe(Fresh(n), net).name == n
    ensures Reachable(net) && !net.handshake ==> Probe(Fresh(n), net).name == "www." + n
    ensures !Reachable(net) ==> Probe(Fresh(n), net).name == n
  {
  }

  /** Both handshakes fail: TLS reads f under the renamed site, later stages not run. */
  lemma TlsFailure(n: string, net: Network)
    requires Reachable(net) && !net.handshake && !net.retry
    ensures Columns(Probe(Fresh(n), net)) == ["www." + n, "t", "t", "f", "-", "-", "-", "-", "-", ""]
  {
  }

  /** After a successful handshake both announcements are checked against
    * the advertised list, which is kept unchanged. */
  lemma Announcements(n: string, net: Network)
    requires Secured(net)
    ensures var r := Probe(Fresh(n), net);
      && r.spdyAnnounced == Tri(true, Spdy in net.offered)
      && r.http2Announced == Tri(true, H2 in net.offered)
      && r.npn == net.offered
  {
  }

  /** A failed HTTPS GET reads f and suppresses both request stages, announced or not. */
  lemma HttpsFailure(n: string, net: Network)
    requires Secured(net) && !net.get
    ensures var r := Probe(Fresh(n), net);
      Render(r.httpsWorks) == "f" && Render(r.spdyWorks) == "-" && Render(r.http2Works) == "-"
  {
  }

  /** The SPDY request runs exactly when SPDY was announced and HTTPS worked,
    * and succeeds exactly when dial, negotiation, client connection and
    * request all succeed; a different negotiated protocol leaves f, not -. */
  lemma SpdyRequest(n: string, net: Network)
    ensures var r := Probe(Fresh(n), net); var u := net.spdy;
      && (r.spdyWorks.ran <==> r.spdyAnnounced.yesno && r.httpsWorks.yesno)
      && (r.spdyWorks.yesno <==> r.spdyWorks.ran && u.dialed && u.negotiated == Spdy && u.clientConn && u.request)
      && (r.spdyWorks.ran && u.negotiated != Spdy ==> Render(r.spdyWorks) == "f")
  {
  }

  /** The same rule for the HTTP/2 request with "h2". */
  lemma Http2Request(n: string, net: Network)
    ensures var r := Probe(Fresh(n), net); var u := net.h2;
      && (r.http2Works.ran <==> r.http2Announced.yesno && r.httpsWorks.yesno)
      && (r.http2Works.yesno <==> r.http2Works.ran && u.dialed && u.negotiated == H2 && u.clientConn && u.request)
      && (r.http2Works.ran && u.negotiated != H2 ==> Render(r.http2Works) == "f")
  {
  }

  /** Everything up to HTTPS works, on the first handshake or the retry, and nothing is advertised. */
  lemma NoAlternateProtocols(n: string, net: Network)
    requires Secured(net) && net.offered == [] && net.get
    ensures Columns(Probe(Fresh(n), net)) == [TlsName(n, net), "t", "t", "t", "t", "f", "f", "-", "-", ""]
  {
  }
}
