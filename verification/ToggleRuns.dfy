/** Switching a single DNS rule on or off keeps the mirror invariant. */
module ToggleRuns {
  import opened AppConfig
  import opened Targets
  import opened RuleOps
  import opened DataStore
  import opened Mirror
  import opened Staging
  import opened Runs
  import opened DnsRuleUpdate
  import opened Switches
  import opened SyncWorker
  import opened MirrorInvariant

  /** Whatever the new configurations occupy holds what it should. */
  lemma ToggledHolds(kv: Store, kv': Store, app: Uuid, id: string, state: RuleState, m: External, m': External,
                     a: Uuid, r: Rule, s: Stage, x: Cell)
    requires DomainsUnique(kv) && Mirrored(All, m, kv) && WellFormed(Config(kv, app))
    requires Toggled(kv, kv', app, id, state)
    requires RuleIn(kv', app, id).Some? && Followed(m, m', app, RuleIn(kv', app, id).value)
    requires Occupies(All, a, Config(kv', a), r, s, x)
    ensures Lookup(m', x) == Held(s, r)
  {
    hide DomainsUnique, Toggled;
    var i := Replaced(kv, kv', app, id, state);
    var c, q := Config(kv, app).value, Config(kv', app).value.dns[i];
    if a == app && r.id == q.id && KindOf(r) == DnsKind {
      OnlySwitched(c, i, state, r);
    } else {
      var r0 := r;
      if a == app {
        r0 := SwitchedRule(c, i, state, r);
      }
      NotSwitched(kv, app, c.dns[i], a, r0, s, x);
    }
  }

  /** The cells of a rule are no other rule's. */
  lemma NotSwitched(kv: Store, app: Uuid, q: DnsRule, a: Uuid, r: Rule, s: Stage, x: Cell)
    requires DomainsUnique(kv) && InConfig(Config(kv, app), q) && Occupies(All, a, Config(kv, a), r, s, x)
    requires !(a == app && r.id == q.id && KindOf(r) == DnsKind)
    ensures x !in {ServerCell(app, q), PlaneCell(app, q)}
  {
    hide DomainsUnique;
    if x in {ServerCell(app, q), PlaneCell(app, q)} {
      OneHolder(All, kv, a, r, s, app, q, if x == ServerCell(app, q) then Local else Mp2, x);
    }
  }

  /** Whatever the targets hold belongs to a rule of the new configurations. */
  lemma ToggledOnly(kv: Store, kv': Store, app: Uuid, id: string, state: RuleState, m: External, m': External, x: Cell)
    returns (a: Uuid, r: Rule, s: Stage)
    requires Mirrored(All, m, kv) && Toggled(kv, kv', app, id, state)
    requires RuleIn(kv', app, id).Some? && Followed(m, m', app, RuleIn(kv', app, id).value) && x in m'
    ensures Occupies(All, a, Config(kv', a), r, s, x)
  {
    hide Toggled;
    var i := Replaced(kv, kv', app, id, state);
    var c, q := Config(kv, app).value, Config(kv', app).value.dns[i];
    if x in {ServerCell(app, q), PlaneCell(app, q)} {
      a, r, s := app, q, if x == ServerCell(app, q) then Local else Mp2;
    } else {
      assert Lookup(m, x) == Lookup(m', x);
      a, r, s :| Occupies(All, a, Config(kv, a), r, s, x);
      if a == app {
        UntouchedRule(c, i, state, r);
      }
    }
  }

  /** What is left of the invariant for a switch whose targets followed: its workers' change lists. */
  lemma ToggleKeepsRest(w: World, w': World, app: Uuid, id: string, state: RuleState)
    requires Invariant(All, w) && Takes(w, w', Toggle(app, id, state))
    requires RuleIn(w'.kv, app, id).Some? && Followed(w.content, w'.content, app, RuleIn(w'.kv, app, id).value)
    ensures Exclusive(w') && DomainsUnique(w'.kv) && Mirrored(All, w'.content, w'.kv)
    ensures forall a :: WellFormed(Config(w'.kv, a))
    ensures forall f :: f in w'.flights && f.app != app ==> Underway(w'.kv, f)
  {
    hide DomainsUnique, Followed, WellFormed, Staged, Occupies;
    var i := Replaced(w.kv, w'.kv, app, id, state);
    StepKeepsExclusion(w, w', Toggle(app, id, state));
    ToggleKeepsDomains(w.kv, w'.kv, app, id, state);
    ToggleKeepsWellFormed(Config(w.kv, app).value, i, state);
    forall a, r, s, x | Occupies(All, a, Config(w'.kv, a), r, s, x) ensures Lookup(w'.content, x) == Held(s, r) {
      ToggledHolds(w.kv, w'.kv, app, id, state, w.content, w'.content, a, r, s, x);
    }
    forall x | x in w'.content ensures exists a, r, s :: Occupies(All, a, Config(w'.kv, a), r, s, x) {
      var a, r, s := ToggledOnly(w.kv, w'.kv, app, id, state, w.content, w'.content, x);
    }
    forall f | f in w'.flights && f.app != app ensures Underway(w'.kv, f) {
      assert Underway(w.kv, f);
    }
  }

  lemma ToggleKeepsUnderwayIff(kv: Store, kv': Store, f: Flight, id: string, state: RuleState)
    requires Underway(kv, f) && Toggled(kv, kv', f.app, id, state)
    ensures RuleIn(kv, f.app, id).Some?
    ensures Underway(kv', f) <==> Spares(Job(kv, f.app).value, RuleIn(kv, f.app, id).value, state)
  {
    hide Staged, Spares;
    var i := Replaced(kv, kv', f.app, id, state);
    var t := StatusIn(kv, StatusKey(f.app, f.task)).value;
    SwitchKeepsStagedIff(Job(kv, f.app).value, Config(kv, f.app).value, i, state, t);
  }

  /**
   * A single rule update whose targets followed keeps the invariant if and only
   * if it passes a pending job of its application by.
   */
  lemma ToggleKeepsInvariantIff(w: World, w': World, app: Uuid, id: string, state: RuleState)
    requires Invariant(All, w) && Takes(w, w', Toggle(app, id, state))
    requires RuleIn(w'.kv, app, id).Some? && Followed(w.content, w'.content, app, RuleIn(w'.kv, app, id).value)
    ensures Invariant(All, w') <==> Undisturbed(w, app, id, state)
  {
    hide DomainsUnique, Followed, WellFormed, Mirrored, Exclusive, Spares, Toggled, Underway;
    ToggleKeepsRest(w, w', app, id, state);
    forall f | f in w.flights && f.app == app
      ensures Underway(w.kv, f) && RuleIn(w.kv, app, id).Some? && Job(w.kv, app).Some?
      ensures Underway(w'.kv, f) <==> Spares(Job(w.kv, app).value, RuleIn(w.kv, app, id).value, state)
    {
      UnderwayHasJob(w.kv, f);
      ToggleKeepsUnderwayIff(w.kv, w'.kv, f, id, state);
    }
  }

  lemma UnderwayHasJob(kv: Store, f: Flight)
    requires Underway(kv, f)
    ensures Job(kv, f.app).Some?
  {
  }

  /** What the invariant provides for a single rule update: the rule's cells are mirrored. */
  lemma InvariantMirrorsRule(w: World, app: Uuid, id: string)
    requires Invariant(All, w) && RuleIn(w.kv, app, id).Some?
    ensures MirrorsRule(w.content, app, RuleIn(w.kv, app, id).value)
  {
    var r := RuleIn(w.kv, app, id).value;
    assert Occupies(All, app, Config(w.kv, app), r, Local, ServerCell(app, r));
    assert Occupies(All, app, Config(w.kv, app), r, Mp2, PlaneCell(app, r));
  }
}
