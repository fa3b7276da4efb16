/**
 * The external systems that a rule is pushed to: the data-plane, which keys DNS
 * and traffic rules by application and rule id, and the DNS server, which keys
 * records by host and type. Their joint content is one map of tagged cells.
 */
module Targets {
  import opened AppConfig

  datatype RRType = A | AAAA

  datatype Cell =
    | PlaneDns(app: Uuid, ruleId: string)
    | PlaneTraffic(app: Uuid, ruleId: string)
    | ServerRecord(host: string, rrType: RRType)

  datatype Value =
    | DnsEntry(domain: string, ipType: string, ip: string, ttl: nat)
    | TrafficEntry(filterType: string, action: string, priority: int, filters: seq<string>)
    | Record(rdata: string, recordTtl: nat)

  type External = map<Cell, Value>

  /** A request to an external system; `Skip` is the path on which the code sends nothing. */
  datatype Call =
    | Skip
    | Add(cell: Cell, value: Value)
    | Set(cell: Cell, value: Value)
    | Remove(cell: Cell)

  /** Add refuses a present key, Set and Remove refuse an absent one. */
  predicate Accepts(m: External, c: Call) {
    match c
    case Skip => true
    case Add(cell, _) => cell !in m
    case Set(cell, _) => cell in m
    case Remove(cell) => cell in m
  }

  function Effect(m: External, c: Call): External {
    match c
    case Skip => m
    case Add(cell, v) => m[cell := v]
    case Set(cell, v) => m[cell := v]
    case Remove(cell) => m - {cell}
  }

  predicate Within(c: Call, own: set<Cell>) {
    c.Skip? || c.cell in own
  }

  ghost predicate AgreeOn(m: External, m': External, cells: set<Cell>) {
    forall c :: c in cells ==> Lookup(m, c) == Lookup(m', c)
  }

  ghost predicate AgreeOff(m: External, m': External, cells: set<Cell>) {
    forall c :: c !in cells ==> Lookup(m, c) == Lookup(m', c)
  }

  /**
   * The external systems as one worker sees them. Between any two of its calls
   * other workers may change every cell that is not its own; `background` is
   * what the content would be had this worker sent nothing.
   */
  class Remote {
    var content: External
    ghost var background: External
    ghost var faults: nat

    constructor (initial: External)
      ensures content == background == initial && faults == 0
    {
      content := initial;
      background := initial;
      faults := 0;
    }

    method OthersRun(own: set<Cell>)
      modifies this`content, this`background
      ensures AgreeOn(content, old(content), own)
      ensures AgreeOn(background, old(background), own)
      ensures AgreeOff(old(content), old(background), own) ==> AgreeOff(content, background, own)
    {
      var next: External := *;
      if forall c | c in own :: Lookup(next, c) == Lookup(content, c) {
        background := map c | c in next.Keys + background.Keys && (if c in own then c in background else c in next)
          :: if c in own then background[c] else next[c];
        content := next;
      }
    }

    /** Sends one request. It fails when refused or when a fault is injected, and then changes nothing. */
    method Send(c: Call, own: set<Cell>) returns (ok: bool)
      requires Within(c, own)
      modifies this
      ensures ok ==> Accepts(old(content), c) && AgreeOn(content, Effect(old(content), c), own) && faults == old(faults)
      ensures !ok ==> AgreeOn(content, old(content), own)
      ensures !ok && faults == old(faults) ==> !Accepts(old(content), c)
      ensures old(faults) <= faults
      ensures AgreeOn(background, old(background), own)
      ensures AgreeOff(old(content), old(background), own) ==> AgreeOff(content, background, own)
    {
      if c.Skip? {
        return true;
      }
      OthersRun(own);
      var fault: bool := *;
      if fault {
        faults := faults + 1;
        return false;
      }
      if !Accepts(content, c) {
        return false;
      }
      content := Effect(content, c);
      return true;
    }
  }
}
