/**
 * The DNS server against its reference, a flat map from host and type to a
 * record: every run refines it as long as a record is set in the zone that
 * holds it, and lookup is then a lookup in the map.
 */
module FlatDns {
  import opened AppConfig
  import opened Text
  import opened ZonedStore

  type Flat = map<Key, Entry>

  ghost predicate OneZone(zones: Zones) {
    forall y, z, k :: In(zones, y, k).Some? && In(zones, z, k).Some? ==> y == z
  }

  /** The flat map holds the record of every zone and nothing else. */
  ghost predicate Represents(zones: Zones, flat: Flat) {
    && (forall z, k :: In(zones, z, k).Some? ==> Lookup(flat, k) == In(zones, z, k))
    && forall k :: k in flat ==> Listed(zones, k)
  }

  /** What may be stored: a positive lifetime, some data, and a class that is not the wildcard. */
  predicate Good(e: Entry) {
    e.ttl > 0 && e.pointTo != [] && 1 <= e.rrClass <= 4
  }

  predicate ConcreteClass(c: string) {
    ClassCode(c).Some? && ClassCode(c).value != CLASS_ANY
  }

  /** The reference: a request to the flat map. Zones play no part but for their length. */
  function FlatStep(ip: string -> bool, flat: Flat, req: Request): (Flat, Status) {
    match req
    case DeleteRecord(zone, fqdn, rrType) =>
      if |fqdn| == 0 || |rrType| == 0 || |zone| >= MAX_FQDN then (flat, BadRequest)
      else if TypeCode(rrType).None? || TypedKey(fqdn, rrType) !in flat then (flat, ServerError)
      else (flat - {TypedKey(fqdn, rrType)}, Accepted)
    case AddRecord(zone, rr) =>
      if |zone| >= MAX_FQDN || !ValidRecord(ip, rr) || (TypeCode(rr.rrType).Some? && RecordKey(rr) in flat)
      then (flat, BadRequest)
      else FlatPut(flat, rr)
    case SetRecord(zone, fqdn, rrType, rr) =>
      if !Matches(req) || |zone| >= MAX_FQDN || !ValidRecord(ip, rr) || TypeCode(rr.rrType).None? ||
         RecordKey(rr) !in flat
      then (flat, BadRequest)
      else FlatPut(flat, rr)
  }

  function FlatPut(flat: Flat, rr: ResourceRecord): (Flat, Status) {
    if TypeCode(rr.rrType).None? || !ConcreteClass(rr.rrClass) then (flat, ServerError)
    else (flat[RecordKey(rr) := Entry(ClassCode(rr.rrClass).value, rr.rdata, rr.ttl)], Accepted)
  }

  /** A set names the zone that holds the record. */
  ghost predicate InPlace(zones: Zones, req: Request) {
    req.SetRecord? ==> forall z :: In(zones, z, RecordKey(req.rr)).Some? ==> z == ZoneArg(req.zone)
  }

  /** A validated request is complete, so nothing of an older record survives it. */
  lemma WrittenIsWhole(ip: string -> bool, zones: Zones, zone: string, rr: ResourceRecord)
    requires ValidRecord(ip, rr) && zone != ""
    ensures Written(zones, zone, rr) == if TypeCode(rr.rrType).None? || !ConcreteClass(rr.rrClass) then None
      else Some(Entry(ClassCode(rr.rrClass).value, rr.rdata, rr.ttl))
  {
  }

  /** Whatever a set leaves out comes from a record that was good, so what it stores is good. */
  lemma WrittenIsGood(zones: Zones, zone: string, rr: ResourceRecord)
    requires In(zones, zone, RecordKey(rr)).Some? ==> Good(In(zones, zone, RecordKey(rr)).value)
    ensures var w, was := Written(zones, zone, rr), In(zones, zone, RecordKey(rr));
      w.Some? ==>
        && Good(w.value) && w.value.ttl == rr.ttl
        && (rr.rdata == [] ==> was.Some? && w.value.pointTo == was.value.pointTo)
        && (rr.rdata != [] ==> w.value.pointTo == rr.rdata)
        && (rr.rrClass == "" ==> was.Some? && w.value.rrClass == was.value.rrClass)
        && (rr.rrClass != "" ==> ConcreteClass(rr.rrClass) && w.value.rrClass == ClassCode(rr.rrClass).value)
  {
  }

  /** One record of one zone changes: the flat map follows if no other zone holds the key. */
  lemma ChangeRefines(before: Zones, after: Zones, zone: string, k: Key, e: Option<Entry>, flat: Flat)
    requires OneZone(before) && Represents(before, flat) && OnlyChange(before, after, zone, k, e)
    requires forall z :: In(before, z, k).Some? ==> z == zone
    ensures OneZone(after)
    ensures Represents(after, if e.Some? then flat[k := e.value] else flat - {k})
  {
    var flat' := if e.Some? then flat[k := e.value] else flat - {k};
    forall x | x in flat' ensures Listed(after, x) {
      if x == k {
        assert In(after, zone, k).Some?;
      } else {
        var z :| In(before, z, x).Some?;
        assert In(after, z, x).Some?;
      }
    }
  }

  /**
   * Every handler step refines the flat map: same status, same content, and a
   * key stays in one zone, provided that a set names the zone of its record.
   */
  lemma StepRefines(ip: string -> bool, before: Zones, req: Request, after: Zones, status: Status, flat: Flat)
    requires OneZone(before) && Represents(before, flat) && Step(ip, before, req, after, status) && InPlace(before, req)
    ensures OneZone(after)
    ensures FlatStep(ip, flat, req).1 == status
    ensures Represents(after, FlatStep(ip, flat, req).0)
  {
    hide OneZone, Represents, Written;
    if req.DeleteRecord? {
      var k := TypedKey(req.fqdn, req.rrType);
      ListedIsIn(before, flat, k);
      if status == Accepted {
        var z :| In(before, z, k).Some? && OnlyChange(before, after, z, k, None);
        OnlyHolder(before, z, k);
        ChangeRefines(before, after, z, k, None, flat);
      }
    } else {
      var k := RecordKey(req.rr);
      ListedIsIn(before, flat, k);
      var zone := ZoneArg(req.zone);
      if ValidRecord(ip, req.rr) {
        WrittenIsWhole(ip, before, zone, req.rr);
      }
      if status == Accepted {
        forall z | In(before, z, k).Some? ensures z == zone {
          assert Listed(before, k);
        }
        ChangeRefines(before, after, zone, k, Written(before, zone, req.rr), flat);
      }
    }
  }

  lemma ListedIsIn(zones: Zones, flat: Flat, k: Key)
    requires Represents(zones, flat)
    ensures Listed(zones, k) <==> k in flat
  {
  }

  lemma OnlyHolder(zones: Zones, z: string, k: Key)
    requires OneZone(zones) && In(zones, z, k).Some?
    ensures forall y :: In(zones, y, k).Some? ==> y == z
  {
  }

  /** An accepted set keeps a key in one zone if and only if it names the zone of the record. */
  lemma SetKeepsOneZone(ip: string -> bool, before: Zones, req: Request, after: Zones)
    requires OneZone(before) && req.SetRecord? && Step(ip, before, req, after, Accepted)
    ensures OneZone(after) <==> InPlace(before, req)
  {
  }

  // --- Runs ---

  ghost predicate AllGood(flat: Flat) {
    forall k :: k in flat ==> Good(flat[k])
  }

  datatype Move = Move(req: Request, after: Zones, status: Status)

  /** The handlers take these moves one after another, and every set is in place. */
  ghost predicate Run(ip: string -> bool, start: Zones, moves: seq<Move>)
    decreases |moves|
  {
    |moves| == 0 ||
    (&& Step(ip, start, moves[0].req, moves[0].after, moves[0].status)
     && InPlace(start, moves[0].req)
     && Run(ip, moves[0].after, moves[1..]))
  }

  function FlatRun(ip: string -> bool, flat: Flat, moves: seq<Move>): (Flat, seq<Status>)
    decreases |moves|
  {
    if |moves| == 0 then (flat, [])
    else
      var (next, status) := FlatStep(ip, flat, moves[0].req);
      var (end, rest) := FlatRun(ip, next, moves[1..]);
      (end, [status] + rest)
  }

  function Last(start: Zones, moves: seq<Move>): Zones {
    if |moves| == 0 then start else moves[|moves| - 1].after
  }

  lemma GoodStaysGood(ip: string -> bool, flat: Flat, req: Request)
    requires AllGood(flat)
    ensures AllGood(FlatStep(ip, flat, req).0)
  {
  }

  /**
   * Over a whole run the server answers as the flat map does and ends with its
   * content, one zone for each key, and only well-formed records.
   */
  lemma {:induction false} RunRefines(ip: string -> bool, start: Zones, moves: seq<Move>, flat: Flat)
    requires OneZone(start) && Represents(start, flat) && AllGood(flat) && Run(ip, start, moves)
    ensures OneZone(Last(start, moves))
    ensures Represents(Last(start, moves), FlatRun(ip, flat, moves).0) && AllGood(FlatRun(ip, flat, moves).0)
    ensures |FlatRun(ip, flat, moves).1| == |moves|
    ensures forall i :: 0 <= i < |moves| ==> FlatRun(ip, flat, moves).1[i] == moves[i].status
    decreases |moves|
  {
    hide OneZone, Represents, AllGood, Step, InPlace, FlatStep;
    if |moves| > 0 {
      var m := moves[0];
      StepRefines(ip, start, m.req, m.after, m.status, flat);
      GoodStaysGood(ip, flat, m.req);
      RunRefines(ip, m.after, moves[1..], FlatStep(ip, flat, m.req).0);
    }
  }

  // --- Lookup ---

  /** The record's zone is a zone of the name, so a search comes across it. */
  ghost predicate Reachable(zones: Zones, k: Key) {
    exists z :: ZoneOf(k.host, z) && In(zones, z, k).Some?
  }

  function FlatLookup(flat: Flat, q: Question): Option<seq<Answer>> {
    var answers := AnswersOf(Lookup(flat, KeyOf(q.name, q.qtype)), q);
    if answers == [] then None else Some(answers)
  }

  /**
   * Whatever the order in which zones are searched, lookup is the flat lookup
   * exactly when the record lies in a zone of its name; other records are not found.
   */
  lemma LookupIsFlat(zones: Zones, flat: Flat, q: Question, r: Option<seq<Answer>>)
    requires Represents(zones, flat) && Found(zones, q, r)
    ensures r == if Reachable(zones, KeyOf(q.name, q.qtype)) then FlatLookup(flat, q) else None
  {
  }

  /** The answers to a question: its name and type, class 1, and the lifetime and addresses of a record. */
  ghost predicate Answers(r: Option<seq<Answer>>, q: Question, ttl: nat, addresses: seq<string>) {
    && r.Some? && |r.value| == |addresses|
    && forall i :: 0 <= i < |addresses| ==> r.value[i] == Answer(q.name, q.qtype, 1, ttl, addresses[i])
  }

  /**
   * Field by field: a question for an address of either kind is answered from
   * the record of its lower-cased name, type and class, if that lies in a zone
   * of the name; no other question is answered.
   */
  lemma LookupInFields(zones: Zones, flat: Flat, q: Question, r: Option<seq<Answer>>)
    requires Represents(zones, flat) && AllGood(flat) && Found(zones, q, r)
    ensures var k := Key(Lower(q.name), q.qtype);
      if k in flat && flat[k].rrClass == q.qclass && (q.qtype == 1 || q.qtype == 28) && Reachable(zones, k)
      then Answers(r, q, flat[k].ttl, flat[k].pointTo) else r == None
  {
    LookupIsFlat(zones, flat, q, r);
  }

  // --- The management interface in terms of its texts and numbers ---

  /** A complete record of host addresses: what the server takes in. */
  ghost predicate Complete(ip: string -> bool, rr: ResourceRecord) {
    && 0 < |rr.name| <= 253 && rr.ttl > 0 && |rr.rdata| > 0
    && 0 < |rr.rrType| <= 253 && 0 < |rr.rrClass| <= 253
    && forall i :: 0 <= i < |rr.rdata| ==> 0 < |rr.rdata[i]| <= 45 && ip(rr.rdata[i])
  }

  predicate KnownType(rrType: string) {
    rrType == "A" || rrType == "AAAA"
  }

  /** Some zone holds the name, in any letter case, with the type. */
  ghost predicate Filed(zones: Zones, name: string, rrType: string) {
    (rrType == "A" && Listed(zones, Key(Lower(name), 1))) || (rrType == "AAAA" && Listed(zones, Key(Lower(name), 28)))
  }

  /** A record is added exactly when it is complete, of a known type and class, and not yet held. */
  lemma AddStatusIs(ip: string -> bool, before: Zones, zone: string, rr: ResourceRecord, after: Zones, status: Status)
    requires Step(ip, before, AddRecord(zone, rr), after, status)
    ensures status == BadRequest <==> |zone| >= 253 || !Complete(ip, rr) || Filed(before, rr.name, rr.rrType)
    ensures status == Accepted <==>
      && |zone| < 253 && Complete(ip, rr) && !Filed(before, rr.name, rr.rrType)
      && KnownType(rr.rrType) && rr.rrClass in {"IN", "CS", "CH", "HS"}
  {
    if ValidRecord(ip, rr) {
      WrittenIsWhole(ip, before, ZoneArg(zone), rr);
    }
  }

  /** A record is set exactly when it is complete, named as the path names it, of a known class, and held. */
  lemma SetStatusIs(ip: string -> bool, before: Zones, zone: string, fqdn: string, rrType: string, rr: ResourceRecord,
                    after: Zones, status: Status)
    requires Step(ip, before, SetRecord(zone, fqdn, rrType, rr), after, status)
    ensures status == BadRequest <==>
      |zone| >= 253 || !Complete(ip, rr) || fqdn != rr.name || rrType != rr.rrType || !Filed(before, fqdn, rrType)
    ensures status == Accepted <==> status != BadRequest && rr.rrClass in {"IN", "CS", "CH", "HS"}
  {
    if ValidRecord(ip, rr) {
      WrittenIsWhole(ip, before, ZoneArg(zone), rr);
    }
  }

  /** A record is deleted exactly when it is held, under any zone name that is not too long. */
  lemma DeleteStatusIs(ip: string -> bool, before: Zones, zone: string, fqdn: string, rrType: string, after: Zones,
                       status: Status)
    requires Step(ip, before, DeleteRecord(zone, fqdn, rrType), after, status)
    ensures status == BadRequest <==> fqdn == "" || rrType == "" || |zone| >= 253
    ensures status == Accepted <==> status != BadRequest && Filed(before, fqdn, rrType)
  {
  }

  /**
   * Round trip: whatever is asked for the name of an added record, in any
   * letter case, with its type, is answered from that record if its zone is a
   * zone of the name and the class is its own, and not at all otherwise.
   */
  lemma AddedIsAnswered(ip: string -> bool, before: Zones, zone: string, rr: ResourceRecord, after: Zones,
                        q: Question, r: Option<seq<Answer>>)
    requires Step(ip, before, AddRecord(zone, rr), after, Accepted) && Found(after, q, r)
    requires Lower(q.name) == Lower(rr.name) && (rr.rrType, q.qtype) in {("A", 1), ("AAAA", 28)}
    ensures
      if ZoneOf(Lower(rr.name), if zone == "" then "." else zone)
         && (rr.rrClass, q.qclass) in {("IN", 1), ("CS", 2), ("CH", 3), ("HS", 4)}
      then Answers(r, q, rr.ttl, rr.rdata) else r == None
  {
    WrittenIsWhole(ip, before, ZoneArg(zone), rr);
    var k := KeyOf(q.name, q.qtype);
    assert k == RecordKey(rr);
    forall z ensures In(after, z, k) == if z == ZoneArg(zone) then Written(before, z, rr) else None {
      assert !Listed(before, k);
    }
  }

  /** The same through the handlers: add a record, then ask for it. */
  method AddThenAsk(c: Controller, zone: string, rr: ResourceRecord, q: Question)
    returns (status: Status, r: Option<seq<Answer>>)
    modifies c.store
    ensures (status == Accepted && ZoneOf(Lower(rr.name), if zone == "" then "." else zone)
             && Lower(q.name) == Lower(rr.name) && (rr.rrType, q.qtype) in {("A", 1), ("AAAA", 28)}
             && (rr.rrClass, q.qclass) in {("IN", 1), ("CS", 2), ("CH", 3), ("HS", 4)}) ==>
      Answers(r, q, rr.ttl, rr.rdata)
  {
    hide Step, Found;
    ghost var before := c.store.zones;
    status := c.HandleAdd(zone, rr);
    r := c.store.GetResourceRecord(q);
    if status == Accepted && Lower(q.name) == Lower(rr.name) && (rr.rrType, q.qtype) in {("A", 1), ("AAAA", 28)} {
      AddedIsAnswered(c.ip, before, zone, rr, c.store.zones, q, r);
    }
  }

  /** Spelling the name with other letter case changes nothing but the echoed name. */
  lemma LookupIgnoresCase(zones: Zones, flat: Flat, q: Question, name: string, r: Option<seq<Answer>>,
                          r': Option<seq<Answer>>)
    requires Represents(zones, flat) && Lower(name) == Lower(q.name)
    requires Found(zones, q, r) && Found(zones, q.(name := name), r')
    ensures r.Some? <==> r'.Some?
    ensures r.Some? ==> |r.value| == |r'.value|
    ensures r.Some? ==> forall i :: 0 <= i < |r.value| ==> r'.value[i] == r.value[i].(name := name)
  {
  }

  // --- Two zones for one key ---

  function Example(address: string): ResourceRecord {
    ResourceRecord("www.b.", "A", "IN", 30, [address])
  }

  /** A set into another zone of the name leaves two records, and the search order decides which one is found. */
  lemma MovedRecordIsAmbiguous(ip: string -> bool, y: string, z: string)
    requires y != z && ip(y) && ip(z) && 0 < |y| <= MAX_IP && 0 < |z| <= MAX_IP
    ensures var k, q := RecordKey(Example(y)), Question("www.b.", TYPE_A, CLASS_INET);
      var before: Zones := map["." := map[k := Entry(1, [y], 30)]];
      var after: Zones := before["b." := map[k := Entry(1, [z], 30)]];
      && OneZone(before)
      && Step(ip, before, SetRecord("b.", "www.b.", "A", Example(z)), after, Accepted)
      && Found(after, q, Some([Answer("www.b.", TYPE_A, CLASS_INET, 30, y)]))
      && Found(after, q, Some([Answer("www.b.", TYPE_A, CLASS_INET, 30, z)]))
  {
    var k, q := RecordKey(Example(y)), Question("www.b.", TYPE_A, CLASS_INET);
    var before: Zones := map["." := map[k := Entry(1, [y], 30)]];
    var after: Zones := before["b." := map[k := Entry(1, [z], 30)]];
    assert Lower("www.b.") == "www.b.";
    assert In(before, ".", k).Some?;
    assert LabelStart("www.b.", 4) && "b." == "www.b."[4..] by {
      assert !Quoted("www.b.", 3);
    }
    assert ZoneOf("www.b.", ".") && ZoneOf("www.b.", "b.");
    assert AnswersOf(In(after, ".", k), q) == [Answer("www.b.", TYPE_A, CLASS_INET, 30, y)];
    assert AnswersOf(In(after, "b.", k), q) == [Answer("www.b.", TYPE_A, CLASS_INET, 30, z)];
  }
}
