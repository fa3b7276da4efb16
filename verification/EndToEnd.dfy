/**
 * What the outside sees of a rule: the answers of the DNS server to questions
 * about its domain and the entries of the data-plane, in the rule's own
 * fields. The server is the one that the agent drives, record by record.
 */
module EndToEnd {
  import opened AppConfig
  import opened Targets
  import opened RuleOps
  import opened DataStore
  import opened Mirror
  import opened DnsRuleUpdate
  import opened Runs
  import opened MirrorInvariant
  import opened MirrorRuns
  import opened Completion
  import opened DnsAgent
  import Text
  import ZonedStore

  type Response = Option<seq<ZonedStore.Answer>>

  /** A question for an address of the rule's domain, which is closed with a dot, in any letter case. */
  ghost predicate Asks(q: ZonedStore.Question, r: Rule) {
    && r.content.Dns? && q.qtype == (if r.content.ipType == "IP_V6" then 28 else 1) && q.qclass == 1
    && Text.Lower(q.name) == FiledName(r.content.domain)
  }

  /** One answer with the rule's address and lifetime, and none for an INACTIVE rule. */
  ghost predicate Answered(r: DnsRule, q: ZonedStore.Question, a: Response) {
    a == if r.state == Inactive then None
         else Some([ZonedStore.Answer(q.name, q.qtype, 1, r.content.ttl, r.content.ip)])
  }

  /** The data-plane holds the rule under its application and id, and no INACTIVE rule. */
  ghost predicate Pushed(app: Uuid, r: Rule, m: External) {
    match r.content
    case Dns(domain, ipType, ip, ttl) =>
      Lookup(m, PlaneDns(app, r.id)) == if r.state == Inactive then None else Some(DnsEntry(domain, ipType, ip, ttl))
    case Traffic(filterType, priority, filters, action, _) =>
      Lookup(m, PlaneTraffic(app, r.id))
      == if r.state == Inactive then None else Some(TrafficEntry(filterType, action, priority, filters))
  }

  /** A server that shows what mirrors the rule answers for it. */
  lemma CellIsAnswered(app: Uuid, r: DnsRule, m: External, zones: ZonedStore.Zones, q: ZonedStore.Question, a: Response)
    requires Lookup(m, CellOf(app, Local, r)) == RuleOps.Held(Local, r)
    requires Shows(zones, m) && Asks(q, r) && ZonedStore.Found(zones, q, a)
    ensures Answered(r, q, a)
  {
    var cell := CellOf(app, Local, r);
    assert KeyOfCell(cell) == ZonedStore.KeyOf(q.name, q.qtype);
    var at := ZonedStore.In(zones, ".", KeyOfCell(cell));
    assert forall z :: z != "." ==> ZonedStore.In(zones, z, KeyOfCell(cell)).None?;
    assert ZonedStore.ZoneOf(Text.Lower(q.name), ".");
    var answer := [ZonedStore.Answer(q.name, q.qtype, 1, r.content.ttl, r.content.ip)];
    assert r.state != Inactive ==> ZonedStore.AnswersOf(at, q) == answer;
  }

  // --- After a task ---

  /** Once a task has completed, the server answers for each rule of the job as the rule says. */
  lemma CompletedIsAnswered(d: DnsType, app: Uuid, job: AppDConfig, m: External, own: set<Cell>,
                            r: DnsRule, zones: ZonedStore.Zones, q: ZonedStore.Question, a: Response)
    requires d != DataPlaneOnly && job.operation != DeleteOp && r in job.dns
    requires Exact(d, app, Target(job), m, own)
    requires Shows(zones, m) && Asks(q, r) && ZonedStore.Found(zones, q, a)
    ensures Answered(r, q, a)
  {
    hide Shows, ZonedStore.Found, Asks;
    assert Occupies(d, app, Target(job), r, Local, CellOf(app, Local, r));
    CellIsAnswered(app, r, m, zones, q, a);
  }

  /** And the data-plane holds each rule that is pushed to it: traffic rules always, DNS rules if so configured. */
  lemma CompletedIsPushed(d: DnsType, app: Uuid, job: AppDConfig, m: External, own: set<Cell>, r: Rule)
    requires job.operation != DeleteOp && Exact(d, app, Target(job), m, own)
    requires r in job.traffic || (d != LocalOnly && r in job.dns)
    ensures Pushed(app, r, m)
  {
    assert Occupies(d, app, Target(job), r, Mp2, CellOf(app, Mp2, r));
  }

  lemma DeletedIsEmpty(d: DnsType, app: Uuid, job: AppDConfig, stored: Option<AppDConfig>, m: External, r: Rule,
                       s: Stage)
    requires job.operation == DeleteOp && InConfig(Some(job), r) && Enabled(d, KindOf(r), s)
    requires Exact(d, app, Target(job), m, OwnCells(d, app, job, stored))
    ensures CellOf(app, s, r) !in m
  {
    OccupiedIsOwn(d, app, job, stored, r, s, CellOf(app, s, r));
  }

  /** Once a delete has completed, nothing is answered about its rules. */
  lemma DeletedIsGone(d: DnsType, app: Uuid, job: AppDConfig, stored: Option<AppDConfig>, m: External, r: DnsRule,
                      zones: ZonedStore.Zones, q: ZonedStore.Question, a: Response)
    requires job.operation == DeleteOp && d != DataPlaneOnly && r in job.dns
    requires Exact(d, app, Target(job), m, OwnCells(d, app, job, stored))
    requires Shows(zones, m) && Asks(q, r) && ZonedStore.Found(zones, q, a)
    ensures a == None
  {
    hide Shows, ZonedStore.Found, Exact, OwnCells;
    DeletedIsEmpty(d, app, job, stored, m, r, Local);
    CellIsAnswered(app, r.(state := Inactive), m, zones, q, a);
  }

  /** What is seen of a rule, whatever zones show the content and whatever is asked about the rule. */
  ghost predicate Observed(d: DnsType, app: Uuid, r: Rule, m: External) {
    && (r.content.Dns? && d != DataPlaneOnly ==>
          forall zones, q, a :: Shows(zones, m) && Asks(q, r) && ZonedStore.Found(zones, q, a) ==> Answered(r, q, a))
    && (r.content.Traffic? || d != LocalOnly ==> Pushed(app, r, m))
  }

  /** After a completed task the outside sees each rule of the job as it is, or as INACTIVE if the job deletes it. */
  lemma CompletedIsSeen(d: DnsType, app: Uuid, job: AppDConfig, stored: Option<AppDConfig>, m: External, r: Rule)
    requires Exact(d, app, Target(job), m, OwnCells(d, app, job, stored)) && (r in job.dns || r in job.traffic)
    ensures Observed(d, app, if job.operation == DeleteOp then r.(state := Inactive) else r, m)
  {
    hide Exact, OwnCells, Shows, Asks, ZonedStore.Found;
    var now := if job.operation == DeleteOp then r.(state := Inactive) else r;
    if r.content.Dns? && d != DataPlaneOnly {
      forall zones, q, a | Shows(zones, m) && Asks(q, now) && ZonedStore.Found(zones, q, a)
        ensures Answered(now, q, a)
      {
        AskedForAnyState(q, r, now.state);
        if job.operation == DeleteOp {
          DeletedIsGone(d, app, job, stored, m, r, zones, q, a);
        } else {
          CompletedIsAnswered(d, app, job, m, OwnCells(d, app, job, stored), r, zones, q, a);
        }
      }
    }
    if r.content.Traffic? || d != LocalOnly {
      if job.operation == DeleteOp {
        DeletedIsEmpty(d, app, job, stored, m, r, Mp2);
      } else {
        CompletedIsPushed(d, app, job, m, OwnCells(d, app, job, stored), r);
      }
    }
  }

  lemma AskedForAnyState(q: ZonedStore.Question, r: Rule, state: RuleState)
    ensures Asks(q, r.(state := state)) <==> Asks(q, r)
  {
  }

  /** All rules of the job are seen as it asks for. */
  ghost predicate AsAsked(d: DnsType, app: Uuid, job: AppDConfig, m: External) {
    forall r :: r in job.dns || r in job.traffic ==>
      Observed(d, app, if job.operation == DeleteOp then r.(state := Inactive) else r, m)
  }

  /** Once a single rule has been switched, both systems follow it. */
  lemma SwitchedIsSeen(m: External, m': External, app: Uuid, r: DnsRule)
    requires Followed(m, m', app, r)
    ensures Observed(All, app, r, m')
  {
    hide Shows, ZonedStore.Found, Asks;
    forall zones, q, a | Shows(zones, m') && Asks(q, r) && ZonedStore.Found(zones, q, a) ensures Answered(r, q, a) {
      CellIsAnswered(app, r, m', zones, q, a);
    }
  }

  // --- In every state of a run ---

  /** An application has the rule stored. */
  ghost predicate Stores(kv: Store, app: Uuid, r: Rule) {
    && ConfigKey(app) in kv && kv[ConfigKey(app)].ConfigRecord?
    && (r in kv[ConfigKey(app)].config.dns || r in kv[ConfigKey(app)].config.traffic)
  }

  /** Where stored rules are mirrored, a question is answered if and only if an active rule stands behind it. */
  lemma AnswersAreRules(d: DnsType, m: External, kv: Store, zones: ZonedStore.Zones, q: ZonedStore.Question,
                        a: Response)
    requires d != DataPlaneOnly && Mirrored(d, m, kv) && Shows(zones, m) && ZonedStore.Found(zones, q, a)
    ensures a.Some? <==> exists app, r :: Stores(kv, app, r) && r.state != Inactive && Asks(q, r)
    ensures forall app, r: DnsRule :: Stores(kv, app, r) && Asks(q, r) ==> Answered(r, q, a)
  {
    hide Shows, ZonedStore.Found, Asks;
    forall app, r: DnsRule | Stores(kv, app, r) && Asks(q, r) ensures Answered(r, q, a) {
      assert Occupies(d, app, Config(kv, app), r, Local, CellOf(app, Local, r));
      CellIsAnswered(app, r, m, zones, q, a);
    }
    if exists app, r :: Stores(kv, app, r) && r.state != Inactive && Asks(q, r) {
      var app, r :| Stores(kv, app, r) && r.state != Inactive && Asks(q, r);
      AskedIsDns(q, r);
      var dns: DnsRule := r;
      assert Answered(dns, q, a);
    } else if a.Some? {
      var app, r := AnswerHasRule(d, m, kv, zones, q, a);
    }
  }

  lemma AskedIsDns(q: ZonedStore.Question, r: Rule)
    requires Asks(q, r)
    ensures r.content.Dns?
  {
  }

  /** An answer comes from a cell of the content. */
  lemma AnswerHasCell(m: External, zones: ZonedStore.Zones, q: ZonedStore.Question, a: Response)
    requires Shows(zones, m) && ZonedStore.Found(zones, q, a) && a.Some?
    ensures (q.qtype == 1 || q.qtype == 28) && q.qclass == 1
    ensures ServerRecord(Text.Lower(q.name), if q.qtype == 28 then AAAA else A) in m
  {
    var k := ZonedStore.KeyOf(q.name, q.qtype);
    var z :| a.value == ZonedStore.AnswersOf(ZonedStore.In(zones, z, k), q);
    assert a.value != [];
    assert ZonedStore.AnswersOf(None, q) == [];
    assert ZonedStore.In(zones, z, k).Some?;
    var cell := ServerRecord(k.host, if q.qtype == 28 then AAAA else A);
    assert KeyOfCell(cell) == k;
  }

  lemma AnswerHasRule(d: DnsType, m: External, kv: Store, zones: ZonedStore.Zones, q: ZonedStore.Question, a: Response)
    returns (app: Uuid, r: Rule)
    requires Mirrored(d, m, kv) && Shows(zones, m) && ZonedStore.Found(zones, q, a) && a.Some?
    ensures Stores(kv, app, r) && r.state != Inactive && Asks(q, r)
  {
    hide Shows, ZonedStore.Found;
    AnswerHasCell(m, zones, q, a);
    var s: Stage;
    app, r, s := HeldHasRule(d, m, kv, ServerRecord(Text.Lower(q.name), if q.qtype == 28 then AAAA else A));
  }

  lemma HeldHasRule(d: DnsType, m: External, kv: Store, x: Cell) returns (app: Uuid, r: Rule, s: Stage)
    requires Mirrored(d, m, kv) && x in m
    ensures Stores(kv, app, r) && r.state != Inactive && Enabled(d, KindOf(r), s) && CellOf(app, s, r) == x
  {
    app, r, s :| Occupies(d, app, Config(kv, app), r, s, x);
    assert Lookup(m, x) == RuleOps.Held(s, r);
  }

  /** The data-plane holds exactly the active rules of the stored configurations that are pushed to it. */
  lemma PlaneIsRules(d: DnsType, m: External, kv: Store)
    requires Mirrored(d, m, kv)
    ensures forall app, r :: Stores(kv, app, r) && (r.content.Traffic? || d != LocalOnly) ==> Pushed(app, r, m)
    ensures forall app, id :: PlaneDns(app, id) in m ==>
      d != LocalOnly && exists r :: Stores(kv, app, r) && r.id == id && r.content.Dns? && r.state != Inactive
    ensures forall app, id :: PlaneTraffic(app, id) in m ==>
      exists r :: Stores(kv, app, r) && r.id == id && r.content.Traffic? && r.state != Inactive
    ensures forall host, t :: ServerRecord(host, t) in m ==> d != DataPlaneOnly
  {
    hide Mirrored, Stores, Pushed;
    forall app, r | Stores(kv, app, r) && (r.content.Traffic? || d != LocalOnly) ensures Pushed(app, r, m) {
      StoredIsPushed(d, m, kv, app, r);
    }
    forall app, id | PlaneDns(app, id) in m
      ensures d != LocalOnly
      ensures exists r :: Stores(kv, app, r) && r.id == id && r.content.Dns? && r.state != Inactive
    {
      var x, r, s := HeldHasRule(d, m, kv, PlaneDns(app, id));
    }
    forall app, id | PlaneTraffic(app, id) in m
      ensures exists r :: Stores(kv, app, r) && r.id == id && r.content.Traffic? && r.state != Inactive
    {
      var x, r, s := HeldHasRule(d, m, kv, PlaneTraffic(app, id));
    }
    forall host, t | ServerRecord(host, t) in m ensures d != DataPlaneOnly {
      var x, r, s := HeldHasRule(d, m, kv, ServerRecord(host, t));
    }
  }

  lemma StoredIsPushed(d: DnsType, m: External, kv: Store, app: Uuid, r: Rule)
    requires Mirrored(d, m, kv) && Stores(kv, app, r) && (r.content.Traffic? || d != LocalOnly)
    ensures Pushed(app, r, m)
  {
    assert Occupies(d, app, Config(kv, app), r, Mp2, CellOf(app, Mp2, r));
    assert Lookup(m, CellOf(app, Mp2, r)) == RuleOps.Held(Mp2, r);
  }

  /**
   * In every state of a clean run each stored rule is seen as it is stored at
   * that moment, and every answer has an active stored rule behind it.
   */
  lemma RunIsSeen(d: DnsType, ws: seq<World>, steps: seq<Step>, i: nat)
    requires CleanRun(d, ws, steps) && Invariant(d, ws[0]) && i < |ws|
    ensures forall app, r :: Stores(ws[i].kv, app, r) ==> Observed(d, app, r, ws[i].content)
    ensures forall zones, q, a :: Shows(zones, ws[i].content) && ZonedStore.Found(zones, q, a) && a.Some? ==>
      exists app, r :: Stores(ws[i].kv, app, r) && r.state != Inactive && Asks(q, r)
  {
    hide Mirrored, Shows, ZonedStore.Found, Asks, Stores, Pushed, Invariant, CleanRun, Observed;
    RunKeepsMirror(d, ws, steps);
    forall app, r | Stores(ws[i].kv, app, r) ensures Observed(d, app, r, ws[i].content) {
      MirroredIsSeen(d, ws[i].content, ws[i].kv, app, r);
    }
    forall zones, q, a | Shows(zones, ws[i].content) && ZonedStore.Found(zones, q, a) && a.Some?
      ensures exists app, r :: Stores(ws[i].kv, app, r) && r.state != Inactive && Asks(q, r)
    {
      var app, r := AnswerHasRule(d, ws[i].content, ws[i].kv, zones, q, a);
    }
  }

  lemma MirroredIsSeen(d: DnsType, m: External, kv: Store, app: Uuid, r: Rule)
    requires Mirrored(d, m, kv) && Stores(kv, app, r)
    ensures Observed(d, app, r, m)
  {
    hide Mirrored, Shows, ZonedStore.Found, Asks, Pushed;
    if r.content.Traffic? || d != LocalOnly {
      StoredIsPushed(d, m, kv, app, r);
    }
    if r.content.Dns? && d != DataPlaneOnly {
      var dns: DnsRule := r;
      forall zones, q, a | Shows(zones, m) && Asks(q, r) && ZonedStore.Found(zones, q, a) ensures Answered(dns, q, a) {
        AnswersAreRules(d, m, kv, zones, q, a);
      }
    }
  }

  // --- The server follows the agent ---

  /** A call that was sent, and what it left behind on the DNS server. */
  datatype Sent = Sent(call: Call, domain: string, accepted: bool, zones: ZonedStore.Zones)

  /** Calls about records go to the server, through the agent; the others go elsewhere. */
  ghost predicate Delivered(ip: string -> bool, before: ZonedStore.Zones, x: Sent) {
    if About(x.call, x.domain) then
      exists status ::
        ZonedStore.Step(ip, before, RequestFor(x.call, x.domain), x.zones, status)
        && (x.accepted <==> status == ZonedStore.Accepted)
    else !x.call.Skip? && !x.call.cell.ServerRecord? && x.zones == before
  }

  ghost function ZonesAfter(start: ZonedStore.Zones, sent: seq<Sent>): ZonedStore.Zones {
    if |sent| == 0 then start else sent[|sent| - 1].zones
  }

  ghost predicate Deliveries(ip: string -> bool, start: ZonedStore.Zones, sent: seq<Sent>) {
    forall i :: 0 <= i < |sent| ==> Delivered(ip, ZonesAfter(start, sent[..i]), sent[i])
  }

  /** The joint content after the calls: accepted ones take effect. */
  ghost function ContentAfter(m: External, sent: seq<Sent>): External {
    if |sent| == 0 then m
    else
      var before := ContentAfter(m, sent[..|sent| - 1]);
      var x := sent[|sent| - 1];
      if x.accepted then Effect(before, x.call) else before
  }

  /** The server takes a call about a record exactly if the target accepts it and the validation lets it through. */
  ghost predicate TakenAs(ip: string -> bool, m: External, x: Sent) {
    About(x.call, x.domain) ==> (x.accepted <==> Accepts(m, x.call) && Sendable(ip, x.call, x.domain))
  }

  lemma DeliveryFollows(ip: string -> bool, before: ZonedStore.Zones, m: External, x: Sent)
    requires Shows(before, m) && Delivered(ip, before, x)
    ensures Shows(x.zones, if x.accepted then Effect(m, x.call) else m)
    ensures TakenAs(ip, m, x)
  {
    hide Shows, Sendable, ZonedStore.Step;
    if About(x.call, x.domain) {
      var status :|
        && ZonedStore.Step(ip, before, RequestFor(x.call, x.domain), x.zones, status)
        && (x.accepted <==> status == ZonedStore.Accepted);
      AgentIsTarget(ip, before, x.zones, status, m, x.call, x.domain);
    } else {
      ElsewhereIsNotShown(before, m, x.call);
    }
  }

  lemma DeliveriesOfPrefix(ip: string -> bool, start: ZonedStore.Zones, sent: seq<Sent>, n: nat)
    requires Deliveries(ip, start, sent) && n <= |sent|
    ensures Deliveries(ip, start, sent[..n])
  {
    hide Delivered, ZonesAfter;
    forall i | 0 <= i < n ensures Delivered(ip, ZonesAfter(start, sent[..n][..i]), sent[..n][i]) {
      assert sent[..n][..i] == sent[..i];
    }
  }

  /**
   * Over any sequence of calls to both systems the server goes on showing the
   * content, and takes each call about a record as the target of sync tasks does.
   */
  lemma {:induction false} ServerFollows(ip: string -> bool, start: ZonedStore.Zones, m: External, sent: seq<Sent>)
    requires Shows(start, m) && Deliveries(ip, start, sent)
    ensures Shows(ZonesAfter(start, sent), ContentAfter(m, sent))
    ensures forall i :: 0 <= i < |sent| ==> TakenAs(ip, ContentAfter(m, sent[..i]), sent[i])
  {
    hide Shows, TakenAs, Delivered, Effect, About;
    if |sent| > 0 {
      var n := |sent| - 1;
      var x := sent[n];
      DeliveriesOfPrefix(ip, start, sent, n);
      ServerFollows(ip, start, m, sent[..n]);
      forall i | 0 <= i < n ensures TakenAs(ip, ContentAfter(m, sent[..i]), sent[i]) {
        assert sent[..n][..i] == sent[..i];
        assert TakenAs(ip, ContentAfter(m, sent[..n][..i]), sent[..n][i]);
      }
      assert Delivered(ip, ZonesAfter(start, sent[..n]), x);
      DeliveryFollows(ip, ZonesAfter(start, sent[..n]), ContentAfter(m, sent[..n]), x);
    }
  }

  lemma ElsewhereIsNotShown(zones: ZonedStore.Zones, m: External, c: Call)
    requires Shows(zones, m) && !c.Skip? && !c.cell.ServerRecord?
    ensures Shows(zones, Effect(m, c))
  {
  }
}
