/**
 * The API gateway's view of a service instance: one gateway service for each
 * endpoint URI, its name kept in the instance's properties under the URI.
 */
module Gateway {
  import opened AppConfig
  import Timestamp

  const PREFIX := "endpoint/"

  type Properties = map<string, string>

  function PropKey(uri: string): string {
    PREFIX + uri
  }

  predicate IsEndpoint(key: string) {
    PREFIX <= key
  }

  function UriOf(key: string): string
    requires IsEndpoint(key)
  {
    key[|PREFIX|..]
  }

  lemma KeyAndUri()
    ensures forall uri :: IsEndpoint(PropKey(uri)) && UriOf(PropKey(uri)) == uri
    ensures forall key :: IsEndpoint(key) ==> PropKey(UriOf(key)) == key
  {
  }

  /** The name under which a URI is registered. */
  function NameOf(props: Properties, uri: string): Option<string> {
    if PropKey(uri) in props then Some(props[PropKey(uri)]) else None
  }

  /**
   * The gateway holds the services of other instances and, for this one,
   * exactly the names in its endpoint properties, each leading to its URI.
   */
  ghost predicate Mirror(props: Properties, services: Properties, others: Properties) {
    && (forall name :: name in others ==> name in services && services[name] == others[name])
    && (forall uri :: NameOf(props, uri).Some? ==> Serves(services, NameOf(props, uri).value, uri, others))
    && (forall name :: name in services && name !in others ==> NameOf(props, services[name]) == Some(name))
  }

  predicate Serves(services: Properties, name: string, uri: string, others: Properties) {
    name in services && services[name] == uri && name !in others && name != ""
  }

  ghost predicate SameElsewhere(props: Properties, props': Properties) {
    forall key :: !IsEndpoint(key) ==> (key in props' <==> key in props) && (key in props ==> props'[key] == props[key])
  }

  /** Generated names: distinct, not empty and not in use. */
  ghost predicate FreshNames(names: seq<string>, services: Properties) {
    && (forall i :: 0 <= i < |names| ==> names[i] != "" && names[i] !in services)
    && forall i, j :: 0 <= i < j < |names| ==> names[i] != names[j]
  }

  /** Each new URI has a name generated for it. */
  ghost predicate NamedFrom(en: Properties, uris: seq<string>, names: seq<string>) {
    forall uri :: uri in en ==> exists i :: 0 <= i < |uris| && i < |names| && uris[i] == uri && en[uri] == names[i]
  }

  lemma NamesDiffer(en: Properties, uris: seq<string>, names: seq<string>, services: Properties)
    requires NamedFrom(en, uris, names) && FreshNames(names, services)
    ensures forall uri :: uri in en ==> en[uri] != "" && en[uri] !in services
    ensures forall u, v :: u in en && v in en && u != v ==> en[u] != en[v]
  {
  }

  /** One more endpoint is registered. */
  lemma Registering(props: Properties, services: Properties, others: Properties, uri: string, name: string)
    requires Mirror(props, services, others) && NameOf(props, uri).None? && name !in services && name != ""
    ensures Mirror(props[PropKey(uri) := name], services[name := uri], others)
    ensures SameElsewhere(props, props[PropKey(uri) := name])
    ensures forall u :: NameOf(props[PropKey(uri) := name], u) == if u == uri then Some(name) else NameOf(props, u)
  {
    KeyAndUri();
    var props', services' := props[PropKey(uri) := name], services[name := uri];
    forall u ensures NameOf(props', u) == if u == uri then Some(name) else NameOf(props, u) {
      assert PropKey(u) == PropKey(uri) ==> UriOf(PropKey(u)) == UriOf(PropKey(uri));
    }
    assert name !in others;
  }

  /** An endpoint is taken away. */
  lemma Removing(props: Properties, services: Properties, others: Properties, uri: string)
    requires Mirror(props, services, others) && NameOf(props, uri).Some?
    ensures Mirror(props - {PropKey(uri)}, services - {NameOf(props, uri).value}, others)
    ensures SameElsewhere(props, props - {PropKey(uri)})
    ensures forall u :: NameOf(props - {PropKey(uri)}, u) == if u == uri then None else NameOf(props, u)
  {
    KeyAndUri();
    var props' := props - {PropKey(uri)};
    forall u ensures NameOf(props', u) == if u == uri then None else NameOf(props, u) {
      assert PropKey(u) == PropKey(uri) ==> UriOf(PropKey(u)) == UriOf(PropKey(uri));
    }
  }

  lemma NamesAreNotEmpty(props: Properties, services: Properties, others: Properties, uri: string)
    requires Mirror(props, services, others) && NameOf(props, uri).Some?
    ensures NameOf(props, uri).value != ""
  {
  }

  class ApiGw {
    var services: Properties

    method AddOrUpdate(name: string, uri: string)
      modifies this
      ensures services == old(services)[name := uri]
    {
      services := services[name := uri];
    }

    method CleanUp(name: string)
      modifies this
      ensures services == if name == "" then old(services) else old(services) - {name}
    {
      if name != "" {
        services := services - {name};
      }
    }
  }

  datatype Config = Config(httpProtocol: string, sslEnabled: bool)

  datatype Address = Address(host: string, port: nat)

  /** Where a service is reached; `alternative` is the JSON text of any other description. */
  datatype Transport =
    Transport(protocol: string, uris: seq<string>, addresses: seq<Address>, alternative: Option<string>)

  datatype EndpointType = NoType | Uris | Alternatives

  /** A registration that describes its endpoints in another way than by URIs or addresses. */
  predicate IsAlternative(t: Transport) {
    t.uris == [] && t.addresses == [] && t.alternative.Some?
  }

  function GatewayHost(c: Config): string {
    c.httpProtocol + "://mep-api-gw.mep:" + Timestamp.Format(if c.sslEnabled then 8443 else 8000)
  }

  function GatewayUri(c: Config, name: string): string {
    GatewayHost(c) + "/" + name
  }

  function AddressUri(protocol: string, a: Address): string {
    protocol + "://" + a.host + ":" + Timestamp.Format(a.port) + "/"
  }

  /** The gateway is reached on port 8443 with SSL and on port 8000 without. */
  lemma GatewayPorts(protocol: string, name: string)
    ensures GatewayUri(Config(protocol, true), name) == protocol + "://mep-api-gw.mep:8443/" + name
    ensures GatewayUri(Config(protocol, false), name) == protocol + "://mep-api-gw.mep:8000/" + name
  {
    assert Timestamp.Format(8) == "8";
    assert Timestamp.Format(84) == "84" && Timestamp.Format(80) == "80";
    assert Timestamp.Format(844) == "844" && Timestamp.Format(800) == "800";
    assert Timestamp.Format(8443) == "8443" && Timestamp.Format(8000) == "8000";
  }

  /** An address URI names its host and its port: no two addresses share one. */
  lemma AddressUriInjective(protocol: string, a: Address, b: Address)
    requires AddressUri(protocol, a) == AddressUri(protocol, b)
    ensures a == b
  {
    hide AddressUri, Timestamp.Format, Timestamp.Value, Timestamp.Decimal;
    var uri, p, q := AddressUri(protocol, a), Timestamp.Format(a.port), Timestamp.Format(b.port);
    Timestamp.FormatIsDecimal(a.port);
    Timestamp.FormatIsDecimal(b.port);
    AddressParts(protocol, a);
    AddressParts(protocol, b);
    assert uri[|uri| - |p| - 2] == uri[|uri| - |q| - 2] == ':';
    assert |p| == |q| && p == q;
  }

  /** From the end: a slash, the digits of the port, and the colon that no digit is. */
  lemma AddressParts(protocol: string, a: Address)
    ensures var uri, port := AddressUri(protocol, a), Timestamp.Format(a.port);
      && |uri| == |protocol| + 3 + |a.host| + |port| + 2
      && uri[|uri| - |port| - 2] == ':' && uri[|uri| - |port| - 1..|uri| - 1] == port
      && uri[|protocol| + 3..|uri| - |port| - 2] == a.host
      && Timestamp.Decimal(port) && forall i :: |uri| - |port| - 1 <= i < |uri| - 1 ==> uri[i] != ':'
  {
    Timestamp.FormatIsDecimal(a.port);
    var uri, port := AddressUri(protocol, a), Timestamp.Format(a.port);
    assert forall i :: |uri| - |port| - 1 <= i < |uri| - 1 ==> uri[i] == port[i - (|uri| - |port| - 1)];
  }

  /** The URIs that a registration asks for. */
  function Requested(t: Transport): seq<string> {
    if |t.uris| != 0 then t.uris
    else seq(|t.addresses|, i requires 0 <= i < |t.addresses| => AddressUri(t.protocol, t.addresses[i]))
  }

  /** The returned endpoints are the gateway addresses of the names of these URIs. */
  ghost predicate EndpointsOf(endpoints: seq<string>, c: Config, props: Properties, uris: set<string>) {
    && (forall uri :: uri in uris ==> NameOf(props, uri).Some? && GatewayUri(c, NameOf(props, uri).value) in endpoints)
    && forall e :: e in endpoints ==> exists uri :: uri in uris && LeadsTo(e, c, props, uri)
  }

  ghost predicate LeadsTo(e: string, c: Config, props: Properties, uri: string) {
    NameOf(props, uri).Some? && e == GatewayUri(c, NameOf(props, uri).value)
  }

  lemma OneMoreEndpoint(endpoints: seq<string>, c: Config, props: Properties, uris: set<string>, props': Properties,
                        uri: string)
    requires EndpointsOf(endpoints, c, props, uris) && NameOf(props', uri).Some?
    requires forall u :: u in uris ==> NameOf(props', u) == NameOf(props, u)
    ensures EndpointsOf(endpoints + [GatewayUri(c, NameOf(props', uri).value)], c, props', uris + {uri})
  {
    hide GatewayUri;
  }

  lemma SameEndpoints(endpoints: seq<string>, c: Config, props: Properties, uris: set<string>, props': Properties)
    requires EndpointsOf(endpoints, c, props, uris) && forall u :: u in uris ==> NameOf(props', u) == NameOf(props, u)
    ensures EndpointsOf(endpoints, c, props', uris)
  {
    hide GatewayUri;
  }

  class Instance {
    var properties: Properties
    const gw: ApiGw
    ghost const others: Properties

    constructor (properties: Properties, gw: ApiGw, ghost others: Properties)
      ensures this.properties == properties && this.gw == gw && this.others == others
    {
      this.properties, this.gw, this.others := properties, gw, others;
    }

    ghost predicate Mirrored()
      reads this, gw
    {
      Mirror(properties, gw.services, others)
    }

    /** What an update adds, keeps and takes away. */
    method CompareEndPointsWithDB(nUris: seq<string>, modReq: bool, names: seq<string>)
      returns (newEn: Properties, unmEn: Properties, delEn: Properties)
      requires |names| == |nUris|
      ensures NamedFrom(newEn, nUris, names)
      ensures forall uri :: uri in newEn <==> uri in nUris && (modReq ==> NameOf(properties, uri).None?)
      ensures forall uri :: uri in unmEn <==> modReq && uri in nUris && NameOf(properties, uri).Some?
      ensures forall uri :: uri in unmEn ==> NameOf(properties, uri) == Some(unmEn[uri])
      ensures forall uri :: uri in delEn <==> modReq && uri !in nUris && NameOf(properties, uri).Some?
      ensures forall uri :: uri in delEn ==> NameOf(properties, uri) == Some(delEn[uri])
    {
      newEn, unmEn, delEn := map[], map[], map[];
      for i := 0 to |nUris|
        invariant NamedFrom(newEn, nUris, names)
        invariant forall uri :: uri in newEn <==> uri in nUris[..i] && (modReq ==> NameOf(properties, uri).None?)
        invariant forall uri :: uri in unmEn <==> modReq && uri in nUris[..i] && NameOf(properties, uri).Some?
        invariant forall uri :: uri in unmEn ==> NameOf(properties, uri) == Some(unmEn[uri])
      {
        var uri := nUris[i];
        if !modReq || PropKey(uri) !in properties {
          newEn := newEn[uri := names[i]];
        } else {
          unmEn := unmEn[uri := properties[PropKey(uri)]];
        }
      }
      if !modReq {
        return;
      }
      KeyAndUri();
      var pending := properties.Keys;
      while pending != {}
        invariant pending <= properties.Keys
        invariant forall uri ::
          uri in delEn <==> uri !in nUris && NameOf(properties, uri).Some? && PropKey(uri) !in pending
        invariant forall uri :: uri in delEn ==> NameOf(properties, uri) == Some(delEn[uri])
      {
        var k :| k in pending;
        pending := pending - {k};
        if IsEndpoint(k) {
          var uri := UriOf(k);
          if uri !in newEn && uri !in unmEn {
            delEn := delEn[uri := properties[k]];
          }
        }
      }
    }

    /** Registers the new entries. */
    method AddEntries(newEn: Properties, c: Config) returns (endpoints: seq<string>)
      requires Mirrored()
      requires forall uri :: uri in newEn ==>
        NameOf(properties, uri).None? && newEn[uri] != "" && newEn[uri] !in gw.services
      requires forall u, v :: u in newEn && v in newEn && u != v ==> newEn[u] != newEn[v]
      modifies this, gw
      ensures Mirrored() && SameElsewhere(old(properties), properties)
      ensures forall uri ::
        NameOf(properties, uri) == if uri in newEn then Some(newEn[uri]) else NameOf(old(properties), uri)
      ensures EndpointsOf(endpoints, c, properties, newEn.Keys)
    {
      hide Mirror, EndpointsOf, NameOf;
      endpoints := [];
      var pending := newEn.Keys;
      ghost var done: set<string> := {};
      NoEndpoints(c, properties);
      while pending != {}
        invariant Mirrored() && SameElsewhere(old(properties), properties)
        invariant pending + done == newEn.Keys && pending !! done
        invariant forall uri :: uri in pending ==> newEn[uri] !in gw.services
        invariant forall uri ::
          NameOf(properties, uri) == if uri in done then Some(newEn[uri]) else NameOf(old(properties), uri)
        invariant EndpointsOf(endpoints, c, properties, done)
      {
        var uri :| uri in pending;
        Registering(properties, gw.services, others, uri, newEn[uri]);
        ghost var before := properties;
        if newEn[uri] != "" {
          properties := properties[PropKey(uri) := newEn[uri]];
        }
        gw.AddOrUpdate(newEn[uri], uri);
        OneMoreEndpoint(endpoints, c, before, done, properties, uri);
        endpoints := endpoints + [GatewayUri(c, newEn[uri])];
        pending := pending - {uri};
        done := done + {uri};
      }
      assert done == newEn.Keys;
    }

    /** Takes endpoints away. */
    method RemoveEntries(delEn: Properties)
      requires Mirrored() && forall uri :: uri in delEn ==> NameOf(properties, uri) == Some(delEn[uri])
      modifies this, gw
      ensures Mirrored() && SameElsewhere(old(properties), properties)
      ensures forall uri :: NameOf(properties, uri) == if uri in delEn then None else NameOf(old(properties), uri)
    {
      hide NameOf, Mirror;
      var pending := delEn.Keys;
      while pending != {}
        invariant Mirrored() && SameElsewhere(old(properties), properties)
        invariant pending <= delEn.Keys
        invariant forall uri ::
          NameOf(properties, uri) == if uri in delEn && uri !in pending then None else NameOf(old(properties), uri)
      {
        var uri :| uri in pending;
        Removing(properties, gw.services, others, uri);
        NamesAreNotEmpty(properties, gw.services, others, uri);
        properties := properties - {PropKey(uri)};
        gw.CleanUp(delEn[uri]);
        pending := pending - {uri};
      }
    }

    /**
     * Registers URIs, or moves the registration to them. Afterwards the
     * endpoint properties are exactly the URIs asked for, and those that were
     * there keep their name.
     */
    method HandleEndPointUri(nUris: seq<string>, modReq: bool, names: seq<string>, config: Option<Config>)
      returns (endpoints: seq<string>)
      requires Mirrored() && |names| == |nUris| && FreshNames(names, gw.services)
      requires !modReq ==> forall uri :: NameOf(properties, uri).None?
      modifies this, gw
      ensures Mirrored() && SameElsewhere(old(properties), properties)
      ensures config.None? ==> properties == old(properties) && gw.services == old(gw.services) && endpoints == []
      ensures config.Some? ==> forall uri :: NameOf(properties, uri).Some? <==> uri in nUris
      ensures config.Some? ==> EndpointsOf(endpoints, config.value, properties, set uri | uri in nUris)
      ensures forall uri :: uri in nUris && NameOf(old(properties), uri).Some? ==>
        NameOf(properties, uri) == NameOf(old(properties), uri)
    {
      hide Mirror, EndpointsOf, NameOf;
      if config.None? {
        return [];
      }
      var c := config.value;
      var newEn, unmEn, delEn := CompareEndPointsWithDB(nUris, modReq, names);
      NamesDiffer(newEn, nUris, names, gw.services);
      endpoints := AddEntries(newEn, c);
      ghost var done := newEn.Keys;
      if modReq {
        var pending := unmEn.Keys;
        ghost var added, services := properties, gw.services;
        while pending != {}
          invariant properties == added && gw.services == services
          invariant pending <= unmEn.Keys && done == newEn.Keys + (unmEn.Keys - pending)
          invariant EndpointsOf(endpoints, c, properties, done)
        {
          var uri :| uri in pending;
          OneMoreEndpoint(endpoints, c, properties, done, properties, uri);
          endpoints := endpoints + [GatewayUri(c, unmEn[uri])];
          pending := pending - {uri};
          done := done + {uri};
        }
        RemoveEntries(delEn);
        SameEndpoints(endpoints, c, added, done, properties);
      }
      assert done == set uri | uri in nUris;
    }

    /** Drops every endpoint of the instance. */
    method CleanUpAll()
      requires Mirrored()
      modifies this, gw
      ensures Mirrored() && SameElsewhere(old(properties), properties)
      ensures forall uri :: NameOf(properties, uri).None?
      ensures gw.services == others
    {
      KeyAndUri();
      var pending := properties.Keys;
      while pending != {}
        invariant Mirrored() && SameElsewhere(old(properties), properties)
        invariant forall uri :: NameOf(properties, uri).Some? ==> PropKey(uri) in pending
        invariant forall key :: key in pending ==> key in properties
      {
        var k :| k in pending;
        pending := pending - {k};
        if IsEndpoint(k) {
          assert PropKey(UriOf(k)) == k;
          Removing(properties, gw.services, others, UriOf(k));
          var v := properties[k];
          properties := properties - {k};
          gw.CleanUp(v);
        }
      }
    }

    /**
     * Registers or updates the endpoints of a service; an update without any
     * drops them all. Alternative endpoints pass the gateway by: nothing is
     * registered, and what an update finds registered stays.
     */
    method RegisterEndpoints(t: Transport, modReq: bool, names: seq<string>, config: Option<Config>)
      returns (endpoints: seq<string>, epType: EndpointType)
      requires Mirrored() && |names| == |Requested(t)| && FreshNames(names, gw.services)
      requires !modReq ==> forall uri :: NameOf(properties, uri).None?
      modifies this, gw
      ensures Mirrored() && SameElsewhere(old(properties), properties)
      ensures config.Some? && Requested(t) != [] ==>
        EndpointsOf(endpoints, config.value, properties, set uri | uri in Requested(t))
      ensures IsAlternative(t) ==>
        properties == old(properties) && gw.services == old(gw.services) && endpoints == [t.alternative.value]
      ensures Requested(t) == [] && !IsAlternative(t) ==> endpoints == []
      ensures config.Some? || Requested(t) == [] ==>
        ((forall uri :: NameOf(properties, uri).Some? <==> uri in Requested(t))
         <==> !(IsAlternative(t) && exists uri :: NameOf(old(properties), uri).Some?))
      ensures forall uri :: uri in Requested(t) && NameOf(old(properties), uri).Some? ==>
        NameOf(properties, uri) == NameOf(old(properties), uri)
      ensures epType ==
        if IsAlternative(t) then Alternatives else if config.Some? && Requested(t) != [] then Uris else NoType
    {
      if |t.uris| != 0 {
        endpoints := HandleEndPointUri(t.uris, modReq, names, config);
        epType := if config.Some? then Uris else NoType;
      } else if |t.addresses| != 0 {
        var nUris: seq<string> := [];
        for i := 0 to |t.addresses|
          invariant nUris == Requested(t)[..i]
        {
          nUris := nUris + [AddressUri(t.protocol, t.addresses[i])];
        }
        endpoints := HandleEndPointUri(nUris, modReq, names, config);
        epType := if config.Some? then Uris else NoType;
      } else if t.alternative.Some? {
        return [t.alternative.value], Alternatives;
      } else {
        endpoints, epType := [], NoType;
        if modReq {
          CleanUpAll();
        }
      }
    }
  }

  lemma NoEndpoints(c: Config, props: Properties)
    ensures EndpointsOf([], c, props, {})
  {
  }

  // --- Names read back from endpoints ---

  function NamesOf(props: Properties, uris: set<string>): set<string> {
    set uri | uri in uris && NameOf(props, uri).Some? :: NameOf(props, uri).value
  }

  /** The text after the last slash. */
  function LastSegment(s: string): (r: string)
    ensures '/' !in r
    decreases |s|
  {
    if |s| == 0 then "" else if s[|s| - 1] == '/' then "" else LastSegment(s[..|s| - 1]) + [s[|s| - 1]]
  }

  lemma {:induction false} LastSegmentIs(front: string, name: string)
    requires '/' !in name
    ensures LastSegment(front + "/" + name) == name
  {
    var s := front + "/" + name;
    if |name| > 0 {
      var init := name[..|name| - 1];
      assert s[..|s| - 1] == front + "/" + init && s[|s| - 1] == name[|name| - 1];
      LastSegmentIs(front, init);
    } else {
      assert s[|s| - 1] == '/';
    }
  }

  method GetApiGwSerName(endpoints: seq<string>) returns (names: seq<string>)
    ensures |names| == |endpoints| && forall i :: 0 <= i < |names| ==> names[i] == LastSegment(endpoints[i])
  {
    names := [];
    for i := 0 to |endpoints|
      invariant |names| == i && forall j :: 0 <= j < i ==> names[j] == LastSegment(endpoints[j])
    {
      names := names + [LastSegment(endpoints[i])];
    }
  }

  lemma ParsedName(c: Config, name: string)
    ensures LastSegment(GatewayUri(c, name)) == name <==> '/' !in name
  {
    if '/' !in name {
      LastSegmentIs(GatewayHost(c), name);
    }
  }

  /** No name of these URIs has a slash. */
  ghost predicate NoSlashes(props: Properties, uris: set<string>) {
    forall name :: name in NamesOf(props, uris) ==> '/' !in name
  }

  function ReadNames(endpoints: seq<string>): set<string> {
    set e | e in endpoints :: LastSegment(e)
  }

  lemma LedTo(endpoints: seq<string>, c: Config, props: Properties, uris: set<string>, e: string) returns (uri: string)
    requires EndpointsOf(endpoints, c, props, uris) && e in endpoints
    ensures uri in uris && LeadsTo(e, c, props, uri)
  {
    hide LeadsTo, GatewayUri;
    uri :| uri in uris && LeadsTo(e, c, props, uri);
  }

  lemma ReadIsHeld(endpoints: seq<string>, c: Config, props: Properties, uris: set<string>, name: string)
    requires EndpointsOf(endpoints, c, props, uris) && NoSlashes(props, uris) && name in ReadNames(endpoints)
    ensures name in NamesOf(props, uris)
  {
    hide GatewayUri, LastSegment, EndpointsOf, NameOf;
    var e :| e in endpoints && LastSegment(e) == name;
    var uri := LedTo(endpoints, c, props, uris, e);
    ParsedName(c, NameOf(props, uri).value);
  }

  lemma HeldIsRead(endpoints: seq<string>, c: Config, props: Properties, uris: set<string>, name: string)
    requires EndpointsOf(endpoints, c, props, uris) && NoSlashes(props, uris) && name in NamesOf(props, uris)
    ensures name in ReadNames(endpoints)
  {
    hide GatewayUri, LastSegment;
    var uri :| uri in uris && NameOf(props, uri) == Some(name);
    ParsedName(c, name);
  }

  /**
   * The names read back from the returned endpoints are the registered ones if and only if none of those has a slash.
   */
  lemma NamesReadBackIff(endpoints: seq<string>, c: Config, props: Properties, uris: set<string>)
    requires EndpointsOf(endpoints, c, props, uris)
    ensures ReadNames(endpoints) == NamesOf(props, uris) <==> NoSlashes(props, uris)
  {
    assert forall name :: name in ReadNames(endpoints) ==> '/' !in name;
    hide *;
    if NoSlashes(props, uris) {
      forall name ensures name in ReadNames(endpoints) <==> name in NamesOf(props, uris) {
        if name in ReadNames(endpoints) {
          ReadIsHeld(endpoints, c, props, uris, name);
        }
        if name in NamesOf(props, uris) {
          HeldIsRead(endpoints, c, props, uris, name);
        }
      }
    }
  }
}
