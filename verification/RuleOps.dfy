/**
 * The rule operations and the state-machine tables of a sync task. A status
 * entry resolves to a `Change`; each stage of a change has one cell, the value
 * the cell holds before the stage and the value it holds after it.
 */
module RuleOps {
  import opened AppConfig
  import opened Targets
  import Text

  /** Where the DNS agent is configured to push: the DNS server, the data-plane or both. */
  datatype DnsType = LocalOnly | DataPlaneOnly | All

  datatype Stage = Mp2 | Local

  function KindOf(r: Rule): Kind {
    if r.content.Dns? then DnsKind else TrafficKind
  }

  /** The stages that the state-machine table keeps for a kind of rule. */
  predicate Enabled(d: DnsType, kind: Kind, s: Stage) {
    match (kind, s)
    case (DnsKind, Mp2) => d != LocalOnly
    case (DnsKind, Local) => d != DataPlaneOnly
    case (TrafficKind, Mp2) => true
    case (TrafficKind, Local) => false
  }

  const IP_V6 := "IP_V6"

  function CellOf(app: Uuid, s: Stage, r: Rule): Cell {
    match r.content
    case Dns(domain, ipType, _, _) =>
      if s == Mp2 then PlaneDns(app, r.id)
      else ServerRecord(Text.Host(domain), if ipType == IP_V6 then AAAA else A)
    case Traffic(_, _, _, _, _) => PlaneTraffic(app, r.id)
  }

  function ValueOf(s: Stage, r: Rule): Value {
    match r.content
    case Dns(domain, ipType, ip, ttl) =>
      if s == Mp2 then DnsEntry(domain, ipType, ip, ttl) else Record(ip, ttl)
    case Traffic(filterType, priority, filters, action, _) => TrafficEntry(filterType, action, priority, filters)
  }

  /** What a target that mirrors a rule holds in the rule's cell. */
  function Held(s: Stage, r: Rule): Option<Value> {
    if IsActive(r) then Some(ValueOf(s, r)) else None
  }

  // The rule operations. The cell always comes from the new rule.

  function AddCall(app: Uuid, s: Stage, rule: Rule): Call {
    if IsActive(rule) then Add(CellOf(app, s, rule), ValueOf(s, rule)) else Skip
  }

  function SetCall(app: Uuid, s: Stage, rule: Rule, existing: Rule): Call {
    if !IsActive(existing) && IsActive(rule) then Add(CellOf(app, s, rule), ValueOf(s, rule))
    else if IsActive(existing) && !IsActive(rule) then Call.Remove(CellOf(app, s, rule))
    else Set(CellOf(app, s, rule), ValueOf(s, rule))
  }

  function DeleteCall(app: Uuid, s: Stage, rule: Rule, existing: Rule): Call {
    if !IsActive(existing) then Skip else Call.Remove(CellOf(app, s, rule))
  }

  datatype Func = ApplyFunc | RevertFunc

  /** One table row applied to the rules found in the new and old maps; None is the nil dereference. */
  function TableCall(app: Uuid, f: Func, s: Stage, oper: OperType, newRule: Option<Rule>, oldRule: Option<Rule>)
    : Option<Call>
  {
    if newRule.None? then None
    else if oper == OperModify then
      if oldRule.None? then None else Some(SetCall(app, s, newRule.value, oldRule.value))
    else if (oper == OperCreate) == (f == ApplyFunc) then Some(AddCall(app, s, newRule.value))
    else if oldRule.None? then None
    else Some(DeleteCall(app, s, newRule.value, oldRule.value))
  }

  /** Whatever the table calls for addresses the cell of the new rule. */
  lemma CallCell(app: Uuid, f: Func, s: Stage, oper: OperType, newRule: Option<Rule>, oldRule: Option<Rule>)
    ensures var call := TableCall(app, f, s, oper, newRule, oldRule);
      call.Some? ==> newRule.Some? && (call.value.Skip? || call.value.cell == CellOf(app, s, newRule.value))
  {
  }

  datatype Change =
    | Create(target: Rule)
    | Modify(target: Rule, stored: Rule)
    | Delete(stored: Rule)
  {
    function Id(): string {
      if Delete? then stored.id else target.id
    }

    function Oper(): OperType {
      match this
      case Create(_) => OperCreate
      case Modify(_, _) => OperModify
      case Delete(_) => OperDelete
    }

    /** The rule whose fields address the apply calls. */
    function Subject(): Rule {
      if Delete? then stored else target
    }

    /** Both sides of a modification carry the same id and the same kind of content. */
    predicate Coherent() {
      Modify? ==> target.id == stored.id && target.content.Dns? == stored.content.Dns?
    }
  }

  function ApplyCall(app: Uuid, s: Stage, ch: Change): Call {
    match ch
    case Create(target) => AddCall(app, s, target)
    case Modify(target, stored) => SetCall(app, s, target, stored)
    case Delete(stored) => DeleteCall(app, s, stored, stored)
  }

  function RevertCall(app: Uuid, s: Stage, ch: Change): Call {
    match ch
    case Create(target) => DeleteCall(app, s, target, target)
    case Modify(target, stored) => SetCall(app, s, stored, target)
    case Delete(stored) => AddCall(app, s, stored)
  }

  function ChangeCell(app: Uuid, s: Stage, ch: Change): Cell {
    CellOf(app, s, ch.Subject())
  }

  /** Every cell that applying or reverting a stage can address. */
  function StageCells(app: Uuid, s: Stage, ch: Change): set<Cell> {
    match ch
    case Create(target) => {CellOf(app, s, target)}
    case Modify(target, stored) => {CellOf(app, s, target), CellOf(app, s, stored)}
    case Delete(stored) => {CellOf(app, s, stored)}
  }

  /** The change does not move the rule to another cell, as a renamed domain does on the DNS server. */
  predicate Kept(app: Uuid, s: Stage, ch: Change) {
    ch.Modify? ==> CellOf(app, s, ch.target) == CellOf(app, s, ch.stored)
  }

  /** What a mirroring target holds in the change's cell before the stage. */
  function Before(app: Uuid, s: Stage, ch: Change): Option<Value> {
    if ch.Create? || !Kept(app, s, ch) then None else Held(s, ch.stored)
  }

  /** What it holds afterwards. */
  function After(s: Stage, ch: Change): Option<Value> {
    if ch.Delete? then None else Held(s, ch.target)
  }

  /** The stages that a mirroring target accepts. */
  predicate Completable(app: Uuid, s: Stage, ch: Change) {
    ch.Modify? ==>
      if Kept(app, s, ch) then IsActive(ch.target) || IsActive(ch.stored)
      else IsActive(ch.target) && !IsActive(ch.stored)
  }

  /** The content mirrors the stored side of a change at one stage. */
  predicate MirrorsStage(m: External, app: Uuid, s: Stage, ch: Change) {
    && Lookup(m, ChangeCell(app, s, ch)) == Before(app, s, ch)
    && (ch.Modify? ==> Lookup(m, CellOf(app, s, ch.stored)) == Held(s, ch.stored))
  }

  /** Before its stage runs, a change is accepted exactly when it is completable, and acceptance yields `After`. */
  lemma ApplyAccepted(m: External, app: Uuid, s: Stage, ch: Change)
    requires MirrorsStage(m, app, s, ch)
    ensures Accepts(m, ApplyCall(app, s, ch)) <==> Completable(app, s, ch)
    ensures Accepts(m, ApplyCall(app, s, ch)) ==>
      forall c :: Lookup(Effect(m, ApplyCall(app, s, ch)), c)
               == if c == ChangeCell(app, s, ch) then After(s, ch) else Lookup(m, c)
  {
  }

  /**
   * After its stage has run, the compensating call is accepted exactly when the
   * change kept its cell, and it puts back what the cell held before.
   */
  lemma RevertAccepted(m: External, app: Uuid, s: Stage, ch: Change)
    requires Completable(app, s, ch)
    requires Lookup(m, ChangeCell(app, s, ch)) == After(s, ch)
    requires !Kept(app, s, ch) ==> Lookup(m, CellOf(app, s, ch.stored)) == Held(s, ch.stored)
    ensures Accepts(m, RevertCall(app, s, ch)) <==> Kept(app, s, ch)
    ensures Kept(app, s, ch) ==>
      forall c :: Lookup(Effect(m, RevertCall(app, s, ch)), c)
               == if c == ChangeCell(app, s, ch) then Before(app, s, ch) else Lookup(m, c)
  {
  }

  /** Table-level inverse: an accepted apply followed by the revert from the swapped maps is the identity. */
  lemma ApplyThenRevert(m: External, app: Uuid, s: Stage, ch: Change)
    requires MirrorsStage(m, app, s, ch) && Accepts(m, ApplyCall(app, s, ch)) && Kept(app, s, ch)
    ensures Accepts(Effect(m, ApplyCall(app, s, ch)), RevertCall(app, s, ch))
    ensures Effect(Effect(m, ApplyCall(app, s, ch)), RevertCall(app, s, ch)) == m
  {
  }

  /** A rename of an inactive rule that also activates it is applied but cannot be compensated. */
  lemma ActivatingRenameIsNotReverted(app: Uuid)
    ensures exists ch: Change, m: External ::
      && MirrorsStage(m, app, Local, ch)
      && Accepts(m, ApplyCall(app, Local, ch))
      && !Accepts(Effect(m, ApplyCall(app, Local, ch)), RevertCall(app, Local, ch))
  {
    var stored := Rule("r", Inactive, Dns("a.", "IP_V4", "10.0.0.1", 30));
    var target := Rule("r", Active, Dns("b.", "IP_V4", "10.0.0.1", 30));
    var ch := Modify(target, stored);
    assert Text.Host("a.")[0] == 'a' && Text.Host("b.")[0] == 'b';
    assert !Kept(app, Local, ch);
    ApplyAccepted(map[], app, Local, ch);
    RevertAccepted(Effect(map[], ApplyCall(app, Local, ch)), app, Local, ch);
  }
}
