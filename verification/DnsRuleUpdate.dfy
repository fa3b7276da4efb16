/**
 * The single DNS rule update: it changes the state of one rule in the stored
 * configuration, on the DNS server and on the data-plane, in this order, and
 * compensates when a later target fails. Preconditions use entity tags as in
 * section 2.3 and section 3.1 of RFC 7232.
 */
module DnsRuleUpdate {
  import opened AppConfig
  import opened Targets
  import opened RuleOps
  import opened DataStore
  import opened SyncWorker

  /** Which of the update's calls meet a fault, in the order in which they are issued. */
  datatype Faults = Faults(put: bool, server: bool, plane: bool, undo: bool, undoAgain: bool, rollback: bool)

  const NOTHING_TO_DO := -1
  const OK := 0
  const VALIDATION_FAILED := 1
  const PARSE_INFO_ERR := 4
  const SUBSCRIPTION_NOT_FOUND := 5
  const OPERATE_DATA_WITH_ETCD_ERR := 6
  const REMOTE_SERVER_ERR := 9
  const ETAG_MISS_MATCH_ERR := 10

  datatype Reply = Reply(code: int, etag: Option<string>, rule: Option<DnsRule>)

  /** The tag function: a digest of the rule's encoding. */
  type Digest = Rule -> string

  /** Distinct rules have distinct tags, and a tag is never the empty header. */
  ghost predicate Injective(hash: Digest) {
    (forall r, r' :: hash(r) == hash(r') ==> r == r') && forall r :: hash(r) != ""
  }

  /** The first rule of the stored configuration with the id. */
  function IndexOf(rules: seq<DnsRule>, id: string): (i: nat)
    ensures i <= |rules|
    ensures i < |rules| ==> rules[i].id == id
    ensures forall j :: 0 <= j < i ==> rules[j].id != id
  {
    if |rules| == 0 || rules[0].id == id then 0 else 1 + IndexOf(rules[1..], id)
  }

  function RuleIn(kv: Store, app: Uuid, id: string): Option<DnsRule> {
    var c := ConfigIn(kv, ConfigKey(app));
    if c.Some? && IndexOf(c.value.dns, id) < |c.value.dns| then Some(c.value.dns[IndexOf(c.value.dns, id)]) else None
  }

  /** The stored configuration with the rule's state replaced. */
  function WithState(c: AppDConfig, i: nat, state: RuleState): AppDConfig
    requires i < |c.dns|
  {
    var r: DnsRule := c.dns[i].(state := state);
    c.(dns := c.dns[i := r])
  }

  /** The store after the state of one rule was changed. */
  ghost predicate Toggled(kv: Store, kv': Store, app: Uuid, id: string, state: RuleState) {
    && RuleIn(kv, app, id).Some? && RuleIn(kv, app, id).value.state != state
    && var c := ConfigIn(kv, ConfigKey(app)).value;
       kv' == kv[ConfigKey(app) := ConfigRecord(WithState(c, IndexOf(c.dns, id), state))]
  }

  /** The targets after it: the rule's two cells follow, all others stay. */
  ghost predicate Followed(m: External, m': External, app: Uuid, r: DnsRule) {
    MirrorsRule(m', app, r) && AgreeOff(m', m, {ServerCell(app, r), PlaneCell(app, r)})
  }

  function ServerCell(app: Uuid, r: DnsRule): Cell {
    CellOf(app, Local, r)
  }

  function PlaneCell(app: Uuid, r: DnsRule): Cell {
    CellOf(app, Mp2, r)
  }

  /** Both targets hold what the rule says. */
  predicate MirrorsRule(m: External, app: Uuid, r: DnsRule) {
    Lookup(m, ServerCell(app, r)) == Held(Local, r) && Lookup(m, PlaneCell(app, r)) == Held(Mp2, r)
  }

  /** Both targets hold what the stored rule says. */
  ghost predicate MirrorsStored(kv: Store, m: External, app: Uuid, id: string) {
    RuleIn(kv, app, id).Some? ==> MirrorsRule(m, app, RuleIn(kv, app, id).value)
  }

  /** Only the state may be changed, and only to ACTIVE or INACTIVE. */
  predicate ValidInput(id: string, input: DnsRule, r: DnsRule) {
    (input.id == "" || input.id == id) && input.content == r.content && input.state != Unset
  }

  /** What the update demands of a rule before it acts. */
  predicate Passes(ifMatch: string, hash: Digest, r: DnsRule) {
    ifMatch == "" || ifMatch == hash(r)
  }

  /** The body repeats the rule in every field but the state, which it names. */
  ghost predicate OnlyState(id: string, body: DnsRule, r: DnsRule) {
    && (body.id == "" || body.id == id)
    && body.content.domain == r.content.domain && body.content.ip == r.content.ip
    && body.content.ipType == r.content.ipType && body.content.ttl == r.content.ttl
    && (body.state == Active || body.state == Inactive)
  }

  /** The rule is stored and the tag that the client sent, if any, is its tag. */
  ghost predicate Admitted(kv: Store, app: Uuid, id: string, ifMatch: string, hash: Digest) {
    RuleIn(kv, app, id).Some? && (ifMatch == "" || ifMatch == hash(RuleIn(kv, app, id).value))
  }

  /** The request is one to change the state of a stored rule. */
  ghost predicate Demands(kv: Store, app: Uuid, id: string, ifMatch: string, body: Option<DnsRule>, hash: Digest) {
    && Admitted(kv, app, id, ifMatch, hash)
    && body.Some? && OnlyState(id, body.value, RuleIn(kv, app, id).value)
    && body.value.state != RuleIn(kv, app, id).value.state
  }

  /** The reply code as far as the store and the request decide it. */
  ghost predicate Decided(kv: Store, app: Uuid, id: string, ifMatch: string, body: Option<DnsRule>, hash: Digest,
                          f: Faults, code: int)
  {
    var stored := RuleIn(kv, app, id);
    var broken := ConfigKey(app) in kv && !kv[ConfigKey(app)].ConfigRecord?;
    && (code == SUBSCRIPTION_NOT_FOUND <==> stored.None? && !broken)
    && (code == ETAG_MISS_MATCH_ERR <==> stored.Some? && ifMatch != "" && ifMatch != hash(stored.value))
    && (code == PARSE_INFO_ERR <==> Admitted(kv, app, id, ifMatch, hash) && body.None?)
    && (code == VALIDATION_FAILED <==>
          Admitted(kv, app, id, ifMatch, hash) && body.Some? && !OnlyState(id, body.value, stored.value))
    && (code == NOTHING_TO_DO <==>
          && Admitted(kv, app, id, ifMatch, hash) && body.Some? && OnlyState(id, body.value, stored.value)
          && body.value.state == stored.value.state)
    && (code == OPERATE_DATA_WITH_ETCD_ERR <==> broken || (Demands(kv, app, id, ifMatch, body, hash) && f.put))
    && (code == OK || code == REMOTE_SERVER_ERR <==> Demands(kv, app, id, ifMatch, body, hash) && !f.put)
    && (code == OK ==> !f.server && !f.plane)
  }

  /** From targets that mirror the rule, the state changes if and only if it is asked to and nothing fails. */
  ghost predicate Succeeds(kv: Store, app: Uuid, id: string, ifMatch: string, body: Option<DnsRule>, hash: Digest,
                           f: Faults)
  {
    && Demands(kv, app, id, ifMatch, body, hash) && !f.put && !f.server && !f.plane
    && (RuleIn(kv, app, id).value.state == Inactive <==> body.value.state == Active)
  }

  class Update {
    var kv: Store
    var content: External

    constructor (kv: Store, content: External)
      ensures this.kv == kv && this.content == content
    {
      this.kv, this.content := kv, content;
    }

    method Put(k: Key, v: Record, fault: bool) returns (ok: bool)
      modifies this`kv
      ensures ok == !fault && kv == if ok then old(kv)[k := v] else old(kv)
    {
      ok := !fault;
      if ok {
        kv := kv[k := v];
      }
    }

    method Send(c: Call, fault: bool) returns (ok: bool)
      modifies this`content
      ensures ok == (!fault && Accepts(old(content), c))
      ensures content == if ok then Effect(old(content), c) else old(content)
    {
      ok := !fault && Accepts(content, c);
      if ok {
        content := Effect(content, c);
      }
    }

    /** The request that brings a target to a state, by adding or removing the record. */
    static function StateCall(app: Uuid, s: Stage, r: DnsRule, state: RuleState): Call {
      if state == Active then Add(CellOf(app, s, r), ValueOf(s, r)) else Call.Remove(CellOf(app, s, r))
    }

    static function Opposite(state: RuleState): RuleState {
      if state == Active then Inactive else Active
    }

    /** The data-plane step; when it fails, a first compensation goes to the DNS server. */
    method UpdateDnsToDataPlane(app: Uuid, r: DnsRule, state: RuleState, f: Faults) returns (ok: bool)
      modifies this`content
      ensures ok == (!f.plane && Accepts(old(content), StateCall(app, Mp2, r, state)))
      ensures ok ==> content == Effect(old(content), StateCall(app, Mp2, r, state))
      ensures !ok ==>
        var undo := StateCall(app, Local, r, Opposite(state));
        content == if !f.undo && Accepts(old(content), undo) then Effect(old(content), undo) else old(content)
    {
      ok := Send(StateCall(app, Mp2, r, state), f.plane);
      if !ok {
        var _ := Send(StateCall(app, Local, r, Opposite(state)), f.undo);
      }
    }

    /** The DNS server first, then the data-plane; a failure there is compensated twice on the server. */
    method UpdateTargets(app: Uuid, r: DnsRule, state: RuleState, f: Faults) returns (ok: bool)
      requires state == Active || state == Inactive
      modifies this`content
      ensures ok ==> !f.server && !f.plane && MirrorsRule(content, app, r.(state := state))
      ensures ok ==> AgreeOff(content, old(content), {ServerCell(app, r), PlaneCell(app, r)})
      ensures !ok ==> AgreeOff(content, old(content), {ServerCell(app, r)})
      ensures old(MirrorsRule(content, app, r)) ==>
        (ok <==> !f.server && !f.plane && IsActive(r) == (state == Inactive))
      ensures !ok && old(MirrorsRule(content, app, r)) ==>
        (Lookup(content, ServerCell(app, r)) != Lookup(old(content), ServerCell(app, r)) <==>
           !f.server && f.plane && IsActive(r) == (state == Inactive) && f.undo && f.undoAgain)
    {
      ok := Send(StateCall(app, Local, r, state), f.server);
      if !ok {
        return;
      }
      ok := UpdateDnsToDataPlane(app, r, state, f);
      if !ok {
        var _ := Send(StateCall(app, Local, r, Opposite(state)), f.undoAgain);
      }
    }

    /**
     * The update of one rule, over any targets. Success changes the stored rule,
     * the DNS record and the data-plane rule together. A failure leaves the
     * data-plane as it was, and the stored rule unless the roll-back write
     * failed. If the targets mirrored the rule, it leaves the DNS record as it
     * was unless both compensations failed, and success depends on the faults
     * and the two states alone.
     */
    method UpdateRemotes(app: Uuid, c: AppDConfig, i: nat, state: RuleState, f: Faults) returns (code: int)
      requires Lookup(kv, ConfigKey(app)) == Some(ConfigRecord(c)) && i < |c.dns|
      requires state == Active || state == Inactive
      modifies this
      ensures code in {OK, OPERATE_DATA_WITH_ETCD_ERR, REMOTE_SERVER_ERR}
      ensures code == OPERATE_DATA_WITH_ETCD_ERR <==> f.put
      ensures code == OK ==> !f.put && !f.server && !f.plane
      ensures old(MirrorsRule(content, app, c.dns[i])) ==>
        (code == OK <==> !f.put && !f.server && !f.plane && IsActive(c.dns[i]) == (state == Inactive))
      ensures code == OK ==>
        && kv == old(kv)[ConfigKey(app) := ConfigRecord(WithState(c, i, state))]
        && MirrorsRule(content, app, WithState(c, i, state).dns[i])
        && AgreeOff(content, old(content), {ServerCell(app, c.dns[i]), PlaneCell(app, c.dns[i])})
      ensures code != OK ==>
        && kv == (if !f.put && f.rollback
                  then old(kv)[ConfigKey(app) := ConfigRecord(WithState(c, i, state))] else old(kv))
        && AgreeOff(content, old(content), {ServerCell(app, c.dns[i])})
      ensures code != OK && old(MirrorsRule(content, app, c.dns[i])) ==>
        (Lookup(content, ServerCell(app, c.dns[i])) != Lookup(old(content), ServerCell(app, c.dns[i])) <==>
           !f.put && !f.server && f.plane && IsActive(c.dns[i]) == (state == Inactive) && f.undo && f.undoAgain)
    {
      hide MirrorsRule, AgreeOff;
      var ok := Put(ConfigKey(app), ConfigRecord(WithState(c, i, state)), f.put);
      if !ok {
        SameAgree(content, {ServerCell(app, c.dns[i])});
        return OPERATE_DATA_WITH_ETCD_ERR;
      }
      ok := UpdateTargets(app, c.dns[i], state, f);
      if !ok {
        var _ := Put(ConfigKey(app), ConfigRecord(c), f.rollback);
        assert !f.rollback ==> kv == old(kv);
        return REMOTE_SERVER_ERR;
      }
      return OK;
    }

    /**
     * The request: find the rule, check the precondition, validate, act. The
     * store and the request decide the code up to the point where the targets
     * are called, and from targets that mirror the rule the whole code.
     */
    method OnRequest(app: Uuid, id: string, ifMatch: string, body: Option<DnsRule>, hash: Digest, f: Faults)
      returns (reply: Reply)
      modifies this
      ensures Decided(old(kv), app, id, ifMatch, body, hash, f, reply.code)
      ensures old(MirrorsStored(kv, content, app, id)) ==>
        (reply.code == OK <==> Succeeds(old(kv), app, id, ifMatch, body, hash, f))
      ensures reply.code !in {OK, REMOTE_SERVER_ERR, OPERATE_DATA_WITH_ETCD_ERR} ==>
        kv == old(kv) && content == old(content)
      ensures reply.code != OK ==>
        kv == old(kv) || (f.rollback && body.Some? && Toggled(old(kv), kv, app, id, body.value.state))
      ensures (reply.code != OK && !(f.undo && f.undoAgain) && old(MirrorsStored(kv, content, app, id))) ==>
        forall x :: Lookup(content, x) == Lookup(old(content), x)
      ensures reply.code == OK ==>
        && RuleIn(old(kv), app, id).Some? && body.Some?
        && RuleIn(kv, app, id) == Some(RuleIn(old(kv), app, id).value.(state := body.value.state))
        && body.value.state != Unset && Toggled(old(kv), kv, app, id, body.value.state)
        && Followed(old(content), content, app, RuleIn(kv, app, id).value)
      ensures reply.etag.Some? <==> reply.code in {OK, NOTHING_TO_DO}
      ensures reply.etag.Some? ==>
        RuleIn(kv, app, id) == reply.rule && reply.rule.Some? && reply.etag.value == hash(reply.rule.value)
    {
      hide MirrorsRule, IndexOf;
      var record := Lookup(kv, ConfigKey(app));
      if record.None? {
        return Reply(SUBSCRIPTION_NOT_FOUND, None, None);
      }
      if !record.value.ConfigRecord? {
        return Reply(OPERATE_DATA_WITH_ETCD_ERR, None, None);
      }
      var c := record.value.config;
      var i := 0;
      while i < |c.dns| && c.dns[i].id != id
        invariant i <= |c.dns| && forall j :: 0 <= j < i ==> c.dns[j].id != id
      {
        i := i + 1;
      }
      IndexIs(c.dns, id, i);
      if i == |c.dns| {
        return Reply(SUBSCRIPTION_NOT_FOUND, None, None);
      }
      var r := c.dns[i];
      if !Passes(ifMatch, hash, r) {
        return Reply(ETAG_MISS_MATCH_ERR, None, None);
      }
      if body.None? {
        return Reply(PARSE_INFO_ERR, None, None);
      }
      if !ValidInput(id, body.value, r) {
        return Reply(VALIDATION_FAILED, None, None);
      }
      if r.state == body.value.state {
        return Reply(NOTHING_TO_DO, Some(hash(r)), Some(r));
      }
      var code := UpdateRemotes(app, c, i, body.value.state, f);
      if code != OK {
        return Reply(code, None, None);
      }
      var changed: DnsRule := r.(state := body.value.state);
      IndexIs(WithState(c, i, body.value.state).dns, id, i);
      return Reply(OK, Some(hash(changed)), Some(changed));
    }
  }

  lemma SameAgree(m: External, cells: set<Cell>)
    ensures AgreeOff(m, m, cells)
  {
  }

  lemma {:induction false} IndexIs(rules: seq<DnsRule>, id: string, i: nat)
    requires i <= |rules| && (i < |rules| ==> rules[i].id == id) && forall j :: 0 <= j < i ==> rules[j].id != id
    ensures IndexOf(rules, id) == i
  {
  }

  /**
   * No lost update: a client changes a rule, anything at all happens to the
   * store and the targets, and the client changes the rule again under the tag
   * that it was handed. The second change is turned down, with no effect, if
   * and only if the stored rule is no longer the one that the client saw.
   */
  method UpdateTwice(u: Update, app: Uuid, id: string, bodies: (Option<DnsRule>, Option<DnsRule>),
                     faults: (Faults, Faults),
                     kv: Store, content: External, hash: Digest)
    returns (first: Reply, second: Reply)
    requires Injective(hash)
    modifies u
    ensures first.etag.Some? && RuleIn(kv, app, id).Some? ==>
      (second.code == ETAG_MISS_MATCH_ERR <==> RuleIn(kv, app, id) != first.rule)
    ensures second.code == ETAG_MISS_MATCH_ERR ==> u.kv == kv && u.content == content
    ensures first.etag.Some? && second.code == OK ==> RuleIn(kv, app, id) == first.rule
  {
    first := u.OnRequest(app, id, "", bodies.0, hash, faults.0);
    u.kv, u.content := kv, content;
    second := u.OnRequest(app, id, if first.etag.Some? then first.etag.value else "", bodies.1, hash, faults.1);
  }
}
