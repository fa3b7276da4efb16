/**
 * The DNS server's record store: one bucket of records for each zone, the
 * management handlers that add, set and delete records, and the lookup that
 * searches the zones of a queried name. Seen from outside it is one flat map
 * from lower-cased host and type to a record.
 */
module ZonedStore {
  import opened AppConfig
  import opened Text

  const MAX_FQDN := 253
  const MAX_IP := 45
  const DEFAULT_ZONE := "."
  const TYPE_A: nat := 1
  const TYPE_AAAA: nat := 28
  const CLASS_INET: nat := 1
  const CLASS_ANY: nat := 255

  datatype ResourceRecord = ResourceRecord(name: string, rrType: string, rrClass: string, ttl: nat, rdata: seq<string>)
  datatype Key = Key(host: string, rrType: nat)
  datatype Entry = Entry(rrClass: nat, pointTo: seq<string>, ttl: nat)
  datatype Question = Question(name: string, qtype: nat, qclass: nat)
  datatype Answer = Answer(name: string, rrType: nat, rrClass: nat, ttl: nat, address: string)
  datatype Status = Accepted | BadRequest | ServerError

  type Zones = map<string, map<Key, Entry>>

  function TypeCode(s: string): Option<nat> {
    if s == "A" then Some(TYPE_A) else if s == "AAAA" then Some(TYPE_AAAA) else None
  }

  function ClassCode(s: string): Option<nat> {
    if s == "IN" then Some(CLASS_INET) else if s == "CS" then Some(2) else if s == "CH" then Some(3)
    else if s == "HS" then Some(4) else if s == "*" then Some(CLASS_ANY) else None
  }

  function KeyOf(name: string, code: nat): Key {
    Key(Lower(name), code)
  }

  /** The key under which a typed name is filed; a type without a code has none of its own. */
  function TypedKey(name: string, rrType: string): Key {
    KeyOf(name, if TypeCode(rrType).Some? then TypeCode(rrType).value else 0)
  }

  function RecordKey(rr: ResourceRecord): Key {
    TypedKey(rr.name, rr.rrType)
  }

  function In(zones: Zones, z: string, k: Key): Option<Entry> {
    if z in zones && k in zones[z] then Some(zones[z][k]) else None
  }

  ghost predicate Listed(zones: Zones, k: Key) {
    exists z :: In(zones, z, k).Some?
  }

  /** The record that a set writes over what the zone holds: fields left out of the request are kept. */
  function Merge(was: Option<Entry>, rr: ResourceRecord): Option<Entry> {
    if was.None? && (|rr.name| == 0 || |rr.rrType| == 0 || |rr.rrType| >= MAX_FQDN || |rr.rrClass| == 0 ||
                     |rr.rrClass| >= MAX_FQDN || |rr.rdata| == 0) then None
    else if |rr.rrClass| != 0 && (ClassCode(rr.rrClass).None? || ClassCode(rr.rrClass).value == CLASS_ANY) then None
    else
      var base := if was.Some? then was.value else Entry(0, [], 0);
      Some(Entry(if |rr.rrClass| != 0 then ClassCode(rr.rrClass).value else base.rrClass,
                 if |rr.rdata| != 0 then rr.rdata else base.pointTo, rr.ttl))
  }

  /** What a set into a zone stores, if it is accepted. */
  function Written(zones: Zones, zone: string, rr: ResourceRecord): Option<Entry> {
    if TypeCode(rr.rrType).None? || rr.ttl == 0 || zone == "" then None
    else Merge(In(zones, zone, RecordKey(rr)), rr)
  }

  /** This record in this zone changes, and no other. */
  ghost predicate OnlyChange(before: Zones, after: Zones, zone: string, k: Key, e: Option<Entry>) {
    && In(after, zone, k) == e
    && forall z, x :: z != zone || x != k ==> In(after, z, x) == In(before, z, x)
  }

  /** The record is gone from one of the zones that held it. */
  ghost predicate Removed(before: Zones, after: Zones, k: Key) {
    exists z :: In(before, z, k).Some? && OnlyChange(before, after, z, k, None)
  }

  // --- Lookup ---

  /** An odd run of backslashes ends just before `i`. */
  predicate Quoted(s: string, i: nat)
    requires i <= |s|
  {
    i > 0 && s[i - 1] == '\\' && !Quoted(s, i - 1)
  }

  /** Where labels start: at the front, and after each inner dot that is not quoted. */
  predicate LabelStart(s: string, i: nat) {
    i == 0 || (i < |s| && s[i - 1] == '.' && !Quoted(s, i - 1))
  }

  /** The zones of a name: its label suffixes and the default zone. */
  ghost predicate ZoneOf(q: string, z: string) {
    z == DEFAULT_ZONE || exists i :: 0 <= i <= |q| && LabelStart(q, i) && z == q[i..]
  }

  /** A quoted dot does not end a label, but a dot after a quoted backslash does. */
  lemma QuotedDots()
    ensures !ZoneOf("a\\.b.c.", "b.c.") && ZoneOf("a\\.b.c.", "c.") && ZoneOf("a\\\\.b.", "b.")
  {
    var q, r := "a\\.b.c.", "a\\\\.b.";
    assert Quoted(q, 2) && !Quoted(q, 4) && LabelStart(q, 5) && q[5..] == "c.";
    forall i | 0 <= i <= |q| && LabelStart(q, i) ensures q[i..] != "b.c." {
      assert i == 3 || |q[i..]| != 4;
    }
    assert Quoted(r, 2) && !Quoted(r, 3) && LabelStart(r, 4) && r[4..] == "b.";
  }

  function AnswerOf(e: Entry, i: nat, q: Question): Answer
    requires i < |e.pointTo|
  {
    Answer(q.name, q.qtype, CLASS_INET, e.ttl, e.pointTo[i])
  }

  function AnswersOf(e: Option<Entry>, q: Question): seq<Answer> {
    if e.None? || e.value.rrClass != q.qclass || (q.qtype != TYPE_A && q.qtype != TYPE_AAAA) then []
    else seq(|e.value.pointTo|, i requires 0 <= i < |e.value.pointTo| => AnswerOf(e.value, i, q))
  }

  /** The outcome of a search: the answers of some zone of the name that has any. */
  ghost predicate Found(zones: Zones, q: Question, r: Option<seq<Answer>>) {
    var k := KeyOf(q.name, q.qtype);
    if r.Some? then r.value != [] && exists z :: ZoneOf(Lower(q.name), z) && r.value == AnswersOf(In(zones, z, k), q)
    else forall z :: ZoneOf(Lower(q.name), z) ==> AnswersOf(In(zones, z, k), q) == []
  }

  class Store {
    var zones: Zones

    constructor ()
      ensures zones == map[DEFAULT_ZONE := map[]]
    {
      zones := map[DEFAULT_ZONE := map[]];
    }

    method SetResourceRecord(zone: string, rr: ResourceRecord) returns (ok: bool)
      modifies this
      ensures ok == Written(old(zones), zone, rr).Some?
      ensures !ok ==> zones == old(zones)
      ensures ok ==> OnlyChange(old(zones), zones, zone, RecordKey(rr), Written(old(zones), zone, rr))
    {
      if TypeCode(rr.rrType).None? || rr.ttl == 0 || zone == "" {
        return false;
      }
      var key := Key(Lower(rr.name), TypeCode(rr.rrType).value);
      var bucket := if zone in zones then zones[zone] else map[];
      var value := Entry(0, [], 0);
      if key in bucket {
        value := bucket[key];
      } else if |rr.name| == 0 || |rr.rrType| == 0 || |rr.rrType| >= MAX_FQDN || |rr.rrClass| == 0 ||
                |rr.rrClass| >= MAX_FQDN || |rr.rdata| == 0 {
        return false;
      }
      if |rr.rrClass| != 0 {
        var c := ClassCode(rr.rrClass);
        if c.None? || c.value == CLASS_ANY {
          return false;
        }
        value := value.(rrClass := c.value);
      }
      value := value.(ttl := rr.ttl);
      if |rr.rdata| != 0 {
        value := value.(pointTo := rr.rdata);
      }
      zones := zones[zone := bucket[key := value]];
      return true;
    }

    method IsResourceRecordExists(rr: ResourceRecord) returns (found: bool)
      ensures found <==> TypeCode(rr.rrType).Some? && rr.ttl > 0 && Listed(zones, RecordKey(rr))
    {
      if TypeCode(rr.rrType).None? || rr.ttl == 0 {
        return false;
      }
      var key := KeyOf(rr.name, TypeCode(rr.rrType).value);
      var zone := FindZone(key);
      return zone.Some?;
    }

    /** Some zone that holds the key; the zones are walked in an order of their own. */
    method FindZone(key: Key) returns (zone: Option<string>)
      ensures zone.Some? ==> In(zones, zone.value, key).Some?
      ensures zone.None? ==> !Listed(zones, key)
    {
      var pending := zones.Keys;
      while pending != {}
        invariant pending <= zones.Keys
        invariant forall z :: z in zones && z !in pending ==> key !in zones[z]
      {
        var z :| z in pending;
        if key in zones[z] {
          return Some(z);
        }
        pending := pending - {z};
      }
      return None;
    }

    /** Deletes the key from one zone that holds it, whichever zone the request names. */
    method DelResourceRecord(host: string, rrType: string) returns (ok: bool)
      modifies this
      ensures ok <==> TypeCode(rrType).Some? && Listed(old(zones), TypedKey(host, rrType))
      ensures !ok ==> zones == old(zones)
      ensures ok ==> Removed(old(zones), zones, TypedKey(host, rrType))
    {
      if TypeCode(rrType).None? {
        return false;
      }
      var key := KeyOf(host, TypeCode(rrType).value);
      var zone := FindZone(key);
      if zone.None? {
        return false;
      }
      zones := zones[zone.value := zones[zone.value] - {key}];
      assert OnlyChange(old(zones), zones, zone.value, key, None);
      return true;
    }

    static method NextLabel(s: string, offset: nat) returns (i: nat, end: bool)
      requires offset <= |s| && LabelStart(s, offset)
      ensures !end ==> offset < i <= |s| && LabelStart(s, i) && forall j :: offset < j < i ==> !LabelStart(s, j)
      ensures end ==> forall j :: offset < j <= |s| ==> !LabelStart(s, j)
    {
      var quote := false;
      i := offset;
      while i < |s| - 1
        invariant offset <= i && (i < |s| || i == offset) && i <= |s|
        invariant quote == Quoted(s, i)
        invariant forall j :: offset < j <= i ==> !LabelStart(s, j)
      {
        if s[i] == '\\' {
          quote := !quote;
        } else if s[i] == '.' {
          if !quote {
            return i + 1, false;
          }
          quote := false;
        } else {
          quote := false;
        }
        i := i + 1;
      }
      return i + 1, true;
    }

    static method ZonesOf(q: string) returns (zs: set<string>)
      ensures forall z :: z in zs <==> ZoneOf(q, z)
    {
      var off, end := 0, false;
      zs := {q};
      assert q[0..] == q;
      while !end
        invariant 0 <= off <= |q| && (!end ==> LabelStart(q, off))
        invariant forall z :: z in zs <==>
          exists i :: 0 <= i <= (if end then |q| else off) && LabelStart(q, i) && z == q[i..]
        decreases !end, |q| - off
      {
        var next;
        next, end := NextLabel(q, off);
        if !end {
          off := next;
          zs := zs + {q[off..]};
        }
      }
      zs := zs + {DEFAULT_ZONE};
    }

    /** One answer for each address of a record of the class asked for, if addresses of either kind are asked for. */
    static method GetRRFromZoneBucket(e: Option<Entry>, q: Question) returns (records: seq<Answer>)
      ensures records == AnswersOf(e, q)
      ensures e.Some? && e.value.rrClass == q.qclass && (q.qtype == 1 || q.qtype == 28) ==>
        && |records| == |e.value.pointTo|
        && forall i :: 0 <= i < |records| ==>
             records[i] == Answer(q.name, q.qtype, 1, e.value.ttl, e.value.pointTo[i])
      ensures e.None? || e.value.rrClass != q.qclass || (q.qtype != 1 && q.qtype != 28) ==> records == []
    {
      records := [];
      if e.None? || e.value.rrClass != q.qclass {
        return;
      }
      for i := 0 to |e.value.pointTo|
        invariant records == if q.qtype == TYPE_A || q.qtype == TYPE_AAAA then AnswersOf(e, q)[..i] else []
      {
        if q.qtype == TYPE_A {
          records := records + [Answer(q.name, TYPE_A, CLASS_INET, e.value.ttl, e.value.pointTo[i])];
        } else if q.qtype == TYPE_AAAA {
          records := records + [Answer(q.name, TYPE_AAAA, CLASS_INET, e.value.ttl, e.value.pointTo[i])];
        }
      }
    }

    /** Searches the zones of the name, in any order, until one answers. */
    method GetResourceRecord(q: Question) returns (r: Option<seq<Answer>>)
      ensures Found(zones, q, r)
    {
      var pending := ZonesOf(Lower(q.name));
      ghost var all := pending;
      while pending != {}
        invariant pending <= all
        invariant forall z :: z in all && z !in pending ==> AnswersOf(In(zones, z, KeyOf(q.name, q.qtype)), q) == []
      {
        var z :| z in pending;
        var records := GetRRFromZoneBucket(In(zones, z, KeyOf(q.name, q.qtype)), q);
        if |records| != 0 {
          return Some(records);
        }
        pending := pending - {z};
      }
      return None;
    }
  }

  // --- The management handlers ---

  datatype Request =
    | AddRecord(zone: string, rr: ResourceRecord)
    | SetRecord(zone: string, fqdn: string, rrType: string, rr: ResourceRecord)
    | DeleteRecord(zone: string, fqdn: string, rrType: string)

  function ZoneArg(zone: string): string {
    if |zone| == 0 then DEFAULT_ZONE else zone
  }

  /** Record data that the handlers let through; `ip` says which texts are unicast addresses. */
  predicate ValidRecord(ip: string -> bool, rr: ResourceRecord) {
    && rr.ttl != 0 && 0 < |rr.name| <= MAX_FQDN && |rr.rdata| != 0
    && 0 < |rr.rrType| <= MAX_FQDN && 0 < |rr.rrClass| <= MAX_FQDN
    && forall i :: 0 <= i < |rr.rdata| ==> 0 < |rr.rdata[i]| <= MAX_IP && ip(rr.rdata[i])
  }

  predicate Matches(req: Request)
    requires req.SetRecord?
  {
    |req.fqdn| != 0 && |req.rrType| != 0 && req.fqdn == req.rr.name && req.rrType == req.rr.rrType
  }

  /** One request and what it leaves behind. */
  ghost predicate Step(ip: string -> bool, before: Zones, req: Request, after: Zones, status: Status) {
    if req.DeleteRecord? then
      if |req.fqdn| == 0 || |req.rrType| == 0 || |req.zone| >= MAX_FQDN then status == BadRequest && after == before
      else if TypeCode(req.rrType).None? || !Listed(before, TypedKey(req.fqdn, req.rrType)) then
        status == ServerError && after == before
      else status == Accepted && Removed(before, after, TypedKey(req.fqdn, req.rrType))
    else
      var zone, rr := ZoneArg(req.zone), req.rr;
      var present := TypeCode(rr.rrType).Some? && Listed(before, RecordKey(rr));
      if (req.SetRecord? && !Matches(req)) || |zone| >= MAX_FQDN || !ValidRecord(ip, rr) || present != req.SetRecord?
      then
        status == BadRequest && after == before
      else if Written(before, zone, rr).None? then status == ServerError && after == before
      else status == Accepted && OnlyChange(before, after, zone, RecordKey(rr), Written(before, zone, rr))
  }

  class Controller {
    const store: Store
    const ip: string -> bool

    constructor (store: Store, ip: string -> bool)
      ensures this.store == store && this.ip == ip
    {
      this.store := store;
      this.ip := ip;
    }

    method ValidateSetRecordInput(zone: string, rr: ResourceRecord) returns (ok: bool)
      ensures ok == (|zone| < MAX_FQDN && ValidRecord(ip, rr))
    {
      if |zone| >= MAX_FQDN || rr.ttl == 0 || |rr.name| == 0 || |rr.name| > MAX_FQDN || |rr.rdata| == 0 ||
         |rr.rrType| == 0 || |rr.rrType| > MAX_FQDN || |rr.rrClass| == 0 || |rr.rrClass| > MAX_FQDN {
        return false;
      }
      for i := 0 to |rr.rdata|
        invariant forall j :: 0 <= j < i ==> 0 < |rr.rdata[j]| <= MAX_IP && ip(rr.rdata[j])
      {
        if |rr.rdata[i]| == 0 || |rr.rdata[i]| > MAX_IP || !ip(rr.rdata[i]) {
          return false;
        }
      }
      return true;
    }

    method HandleAdd(zoneParam: string, rr: ResourceRecord) returns (status: Status)
      modifies store
      ensures Step(ip, old(store.zones), AddRecord(zoneParam, rr), store.zones, status)
    {
      var zone := if |zoneParam| == 0 then DEFAULT_ZONE else zoneParam;
      var valid := ValidateSetRecordInput(zone, rr);
      if !valid {
        return BadRequest;
      }
      var present := store.IsResourceRecordExists(rr);
      if present {
        return BadRequest;
      }
      var ok := store.SetResourceRecord(zone, rr);
      return if ok then Accepted else ServerError;
    }

    method HandleSet(zoneParam: string, fqdn: string, rrType: string, rr: ResourceRecord) returns (status: Status)
      modifies store
      ensures Step(ip, old(store.zones), SetRecord(zoneParam, fqdn, rrType, rr), store.zones, status)
    {
      if |fqdn| == 0 || |rrType| == 0 || fqdn != rr.name || rrType != rr.rrType {
        return BadRequest;
      }
      var zone := if |zoneParam| == 0 then DEFAULT_ZONE else zoneParam;
      var valid := ValidateSetRecordInput(zone, rr);
      if !valid {
        return BadRequest;
      }
      var present := store.IsResourceRecordExists(rr);
      if !present {
        return BadRequest;
      }
      var ok := store.SetResourceRecord(zone, rr);
      return if ok then Accepted else ServerError;
    }

    method HandleDelete(zoneParam: string, fqdn: string, rrType: string) returns (status: Status)
      modifies store
      ensures Step(ip, old(store.zones), DeleteRecord(zoneParam, fqdn, rrType), store.zones, status)
    {
      if |fqdn| == 0 || |rrType| == 0 || |zoneParam| >= MAX_FQDN {
        return BadRequest;
      }
      var ok := store.DelResourceRecord(fqdn, rrType);
      return if ok then Accepted else ServerError;
    }
  }
}
