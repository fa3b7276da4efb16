/** When a staged task completes, in the fields of the rules that it changes. */
module Completion {
  import opened AppConfig
  import opened RuleOps
  import opened RuleDiff
  import opened SyncPlan
  import opened SyncLink
  import opened Mirror
  import Text

  /** A domain as the DNS server files it: closed with a dot, in lower case. */
  ghost function FiledName(domain: string): string {
    Text.Lower(if domain != "" && domain[|domain| - 1] == '.' then domain else domain + ".")
  }

  /** The DNS server files the two rules under different names or record types. */
  ghost predicate Moves(r: Rule, e: Rule) {
    && r.content.Dns? && e.content.Dns?
    && (FiledName(r.content.domain) != FiledName(e.content.domain) ||
        (r.content.ipType == "IP_V6") != (e.content.ipType == "IP_V6"))
  }

  /**
   * The targets accept the change from rule `e` to rule `r`: one of the two is
   * active, and if the server would file the new one elsewhere, the new one alone.
   */
  ghost predicate Changeable(d: DnsType, r: Rule, e: Rule) {
    && (r.state != Inactive || e.state != Inactive)
    && (d != DataPlaneOnly && Moves(r, e) ==> r.state != Inactive && e.state == Inactive)
  }

  /** Every rule that the job changes is changeable. Created and deleted rules always are. */
  ghost predicate Doable(d: DnsType, job: AppDConfig, stored: Option<AppDConfig>) {
    job.operation == DeleteOp ||
    forall kind, id :: Changed(job, stored, kind, id) ==>
      Changeable(d, ById(Rules(job, kind))[id], ById(StoredRules(stored, kind))[id])
  }

  ghost predicate Changed(job: AppDConfig, stored: Option<AppDConfig>, kind: Kind, id: string) {
    && id in ById(Rules(job, kind)) && id in ById(StoredRules(stored, kind))
    && ById(Rules(job, kind))[id] != ById(StoredRules(stored, kind))[id]
  }

  /** One modification, stage by stage. */
  lemma ModifyCompletable(app: Uuid, d: DnsType, r: Rule, e: Rule)
    requires KindOf(r) == KindOf(e) && r.id == e.id
    ensures (forall s :: Enabled(d, KindOf(r), s) ==> Completable(app, s, Modify(Defaulted(r), Defaulted(e))))
       <==> Changeable(d, r, e)
  {
    var ch := Modify(Defaulted(r), Defaulted(e));
    assert Kept(app, Mp2, ch);
    if r.content.Dns? {
      assert Kept(app, Local, ch) <==> !Moves(r, e) by {
        assert FiledName(r.content.domain) == Text.Host(r.content.domain);
        assert FiledName(e.content.domain) == Text.Host(e.content.domain);
      }
    }
    var mp2, local := Completable(app, Mp2, ch), Completable(app, Local, ch);
    assert Changeable(d, r, e) <==>
      (Enabled(d, KindOf(r), Mp2) ==> mp2) && (Enabled(d, KindOf(r), Local) ==> local);
  }

  /** The modify entries of the change list are about the rules that the job changes. */
  lemma ModifyIsChanged(job: AppDConfig, stored: Option<AppDConfig>, t: TaskStatus, kind: Kind, i: nat)
    requires Staged(job, stored, t) && i < |StatusList(t, kind)|
    ensures var e := StatusList(t, kind)[i];
      e.oper == OperModify <==> job.operation != DeleteOp && Changed(job, stored, kind, e.id)
  {
  }

  /** A change of the plan that is no modification is accepted, and a modification as its two rules say. */
  lemma EntryCompletable(cx: Context, job: AppDConfig, stored: Option<AppDConfig>, t: TaskStatus, kind: Kind, i: nat)
    requires Staged(job, stored, t) && i < |StatusList(t, kind)|
    ensures Offset(t, kind) + i < |PlanOf(job, stored, t)|
    ensures var e, k := StatusList(t, kind)[i], Offset(t, kind) + i;
      CompletableTo(cx, PlanOf(job, stored, t), k, WAIT_CONFIG_DB_WRITE) <==>
        (job.operation != DeleteOp && Changed(job, stored, kind, e.id) ==>
           Changeable(cx.dnsType, ById(Rules(job, kind))[e.id], ById(StoredRules(stored, kind))[e.id]))
  {
    hide PlanOf, Distinct, ById, Staged, Workable, Changeable, CellOf;
    StagedIsWorkable(job, stored, t);
    PlanEntry(job, stored, t, kind, i);
    ModifyIsChanged(job, stored, t, kind, i);
    var e, k := StatusList(t, kind)[i], Offset(t, kind) + i;
    assert StoredRules(Some(job), kind) == Rules(job, kind);
    if e.oper == OperModify {
      FoundRule(Some(job), kind, e.id);
      FoundRule(stored, kind, e.id);
      ModifyCompletable(cx.app, cx.dnsType, ById(Rules(job, kind))[e.id], ById(StoredRules(stored, kind))[e.id]);
      assert forall s :: Live(cx, PlanOf(job, stored, t), k, s) <==> Enabled(cx.dnsType, kind, s);
    }
  }

  /** All changes of a staged task are accepted if and only if the job is doable. */
  lemma CompletableIff(cx: Context, job: AppDConfig, stored: Option<AppDConfig>, t: TaskStatus)
    requires Staged(job, stored, t)
    ensures AllCompletable(cx, PlanOf(job, stored, t)) <==> Doable(cx.dnsType, job, stored)
  {
    hide PlanOf, ById, Staged, Changeable, CompletableTo;
    if AllCompletable(cx, PlanOf(job, stored, t)) && job.operation != DeleteOp {
      forall kind, id | Changed(job, stored, kind, id)
        ensures Changeable(cx.dnsType, ById(Rules(job, kind))[id], ById(StoredRules(stored, kind))[id])
      {
        var i := ChangedIsListed(job, stored, t, kind, id);
        EntryCompletable(cx, job, stored, t, kind, i);
      }
    }
    if Doable(cx.dnsType, job, stored) {
      forall k | 0 <= k < |PlanOf(job, stored, t)|
        ensures CompletableTo(cx, PlanOf(job, stored, t), k, WAIT_CONFIG_DB_WRITE)
      {
        var kind, i := if k < |t.dns| then DnsKind else TrafficKind, if k < |t.dns| then k else k - |t.dns|;
        EntryCompletable(cx, job, stored, t, kind, i);
      }
    }
  }

  lemma ChangedIsListed(job: AppDConfig, stored: Option<AppDConfig>, t: TaskStatus, kind: Kind, id: string)
    returns (i: nat)
    requires Staged(job, stored, t) && job.operation != DeleteOp && Changed(job, stored, kind, id)
    ensures i < |StatusList(t, kind)| && StatusList(t, kind)[i].id == id
    ensures id in ById(Rules(job, kind)) && id in ById(StoredRules(stored, kind))
  {
    hide Distinct, ById;
    assert StoredRules(Some(job), kind) == Rules(job, kind);
    assert IsDiff(StatusList(t, kind), ById(StoredRules(Target(job), kind)), ById(StoredRules(stored, kind)));
    assert Differs(id, ById(StoredRules(Target(job), kind)), ById(StoredRules(stored, kind)));
    i :| 0 <= i < |StatusList(t, kind)| && StatusList(t, kind)[i].id == id;
  }
}
