/**
 * The DNS agent in front of the DNS server. It always names the default zone,
 * so the server behaves as the target that sync tasks rely on: add refuses a
 * present record, set and delete refuse an absent one, and a refused request
 * changes nothing.
 */
module DnsAgent {
  import opened AppConfig
  import opened Targets
  import Text
  import ZonedStore
  import FlatDns

  function Typed(t: RRType): string {
    if t == A then "A" else "AAAA"
  }

  function TypeNumber(t: RRType): nat {
    if t == A then ZonedStore.TYPE_A else ZonedStore.TYPE_AAAA
  }

  function KeyOfCell(c: Cell): ZonedStore.Key
    requires c.ServerRecord?
  {
    ZonedStore.Key(c.host, TypeNumber(c.rrType))
  }

  function RecordFor(domain: string, t: RRType, v: Value): ZonedStore.ResourceRecord
    requires v.Record?
  {
    ZonedStore.ResourceRecord(Text.Closed(domain), Typed(t), "IN", v.recordTtl, [v.rdata])
  }

  /** A call about the record of a domain. */
  predicate About(c: Call, domain: string) {
    && !c.Skip? && c.cell.ServerRecord? && c.cell.host == Text.Host(domain)
    && (c.Add? || c.Set? ==> c.value.Record?)
  }

  /** The request that the agent sends for a call. */
  function RequestFor(c: Call, domain: string): ZonedStore.Request
    requires About(c, domain)
  {
    match c
    case Add(cell, v) => ZonedStore.AddRecord(".", RecordFor(domain, cell.rrType, v))
    case Set(cell, v) =>
      ZonedStore.SetRecord(".", Text.Closed(domain), Typed(cell.rrType), RecordFor(domain, cell.rrType, v))
    case Remove(cell) => ZonedStore.DeleteRecord(".", Text.Closed(domain), Typed(cell.rrType))
  }

  function EntryFor(v: Value): ZonedStore.Entry
    requires v.Record?
  {
    ZonedStore.Entry(ZonedStore.CLASS_INET, [v.rdata], v.recordTtl)
  }

  /** The server's cells of the joint content are the records of the default zone, and there are no others. */
  ghost predicate Shows(zones: ZonedStore.Zones, m: External) {
    && (forall z, k :: ZonedStore.In(zones, z, k).Some? ==> z == ZonedStore.DEFAULT_ZONE)
    && (forall c: Cell :: c in m && c.ServerRecord? ==> m[c].Record?)
    && (forall c: Cell :: c.ServerRecord? ==>
         ZonedStore.In(zones, ".", KeyOfCell(c)) == if c in m && m[c].Record? then Some(EntryFor(m[c])) else None)
  }

  /** What the server's validation lets through; a delete is not validated. */
  predicate Sendable(ip: string -> bool, c: Call, domain: string)
    requires About(c, domain)
  {
    c.Remove? ||
    (|Text.Closed(domain)| <= ZonedStore.MAX_FQDN && c.value.recordTtl > 0 &&
     0 < |c.value.rdata| <= ZonedStore.MAX_IP && ip(c.value.rdata))
  }

  lemma CellIsListed(zones: ZonedStore.Zones, m: External, c: Cell)
    requires Shows(zones, m) && c.ServerRecord?
    ensures ZonedStore.Listed(zones, KeyOfCell(c)) <==> c in m
  {
  }

  lemma ShowsAfter(before: ZonedStore.Zones, after: ZonedStore.Zones, m: External, c: Cell, v: Option<Value>)
    requires Shows(before, m) && c.ServerRecord? && (v.Some? ==> v.value.Record?)
    requires ZonedStore.OnlyChange(before, after, ".", KeyOfCell(c), if v.Some? then Some(EntryFor(v.value)) else None)
    ensures Shows(after, if v.Some? then m[c := v.value] else m - {c})
  {
  }

  /**
   * The DNS server, driven by the agent, is the target of the sync tasks: it
   * accepts a call exactly when its validation lets the call through and the
   * target accepts it, and then takes the same effect; any other call changes
   * nothing.
   */
  lemma AgentIsTarget(ip: string -> bool, before: ZonedStore.Zones, after: ZonedStore.Zones, status: ZonedStore.Status,
                      m: External, c: Call, domain: string)
    requires About(c, domain) && Shows(before, m)
    requires ZonedStore.Step(ip, before, RequestFor(c, domain), after, status)
    ensures status == ZonedStore.Accepted <==> Accepts(m, c) && Sendable(ip, c, domain)
    ensures if status == ZonedStore.Accepted then Shows(after, Effect(m, c)) else after == before
  {
    hide Shows;
    CellIsListed(before, m, c.cell);
    assert ZonedStore.TypedKey(Text.Closed(domain), Typed(c.cell.rrType)) == KeyOfCell(c.cell);
    if status == ZonedStore.Accepted {
      match c {
        case Add(cell, v) => RecordIsShown(ip, before, after, m, cell, v, domain);
        case Set(cell, v) => RecordIsShown(ip, before, after, m, cell, v, domain);
        case Remove(cell) =>
          InDefaultZone(before, m);
          ShowsAfter(before, after, m, cell, None);
      }
    } else if !c.Remove? && Sendable(ip, c, domain) {
      FlatDns.WrittenIsWhole(ip, before, ".", RecordFor(domain, c.cell.rrType, c.value));
    }
  }

  lemma RecordIsShown(ip: string -> bool, before: ZonedStore.Zones, after: ZonedStore.Zones, m: External,
                      cell: Cell, v: Value, domain: string)
    requires Shows(before, m) && cell.ServerRecord? && cell.host == Text.Host(domain) && v.Record?
    requires var rr := RecordFor(domain, cell.rrType, v);
      && ZonedStore.ValidRecord(ip, rr)
      && ZonedStore.OnlyChange(before, after, ".", ZonedStore.RecordKey(rr), ZonedStore.Written(before, ".", rr))
    ensures Shows(after, m[cell := v]) && 0 < |v.rdata| <= ZonedStore.MAX_IP && ip(v.rdata)
  {
    hide Shows;
    assert RecordFor(domain, cell.rrType, v).rdata[0] == v.rdata;
    FlatDns.WrittenIsWhole(ip, before, ".", RecordFor(domain, cell.rrType, v));
    ShowsAfter(before, after, m, cell, Some(v));
  }

  lemma InDefaultZone(zones: ZonedStore.Zones, m: External)
    requires Shows(zones, m)
    ensures forall z, k :: ZonedStore.In(zones, z, k).Some? ==> z == "."
  {
  }

  /** The agent's requests never name another zone, so the server's zones refine a flat map with no condition. */
  lemma AgentIsInPlace(zones: ZonedStore.Zones, m: External, c: Call, domain: string)
    requires Shows(zones, m) && About(c, domain)
    ensures FlatDns.OneZone(zones) && FlatDns.InPlace(zones, RequestFor(c, domain))
  {
  }
}
