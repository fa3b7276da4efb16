/** The invariant that the external systems mirror the stored configurations. */
module MirrorInvariant {
  import opened AppConfig
  import opened Targets
  import opened RuleOps
  import opened DataStore
  import opened Mirror
  import opened SyncWorker
  import opened Staging
  import opened Runs

  /** The external systems hold exactly the ACTIVE rules of the stored configurations, with their values. */
  ghost predicate Mirrored(d: DnsType, m: External, kv: Store) {
    && (forall app, r, s, x :: Occupies(d, app, Config(kv, app), r, s, x) ==> Lookup(m, x) == Held(s, r))
    && (forall x :: x in m ==> exists app, r, s :: Occupies(d, app, Config(kv, app), r, s, x))
  }

  /** Every worker in flight has a job and a status record that lists the job's differences. */
  ghost predicate Underway(kv: Store, f: Flight) {
    && Job(kv, f.app).Some? && StatusIn(kv, StatusKey(f.app, f.task)).Some?
    && Staged(Job(kv, f.app).value, Config(kv, f.app), StatusIn(kv, StatusKey(f.app, f.task)).value)
    && TotalRules(StatusIn(kv, StatusKey(f.app, f.task)).value) > 0
  }

  ghost predicate Invariant(d: DnsType, w: World) {
    && Exclusive(w) && DomainsUnique(w.kv) && Mirrored(d, w.content, w.kv)
    && (forall f :: f in w.flights ==> Underway(w.kv, f))
    && (forall app :: WellFormed(Config(w.kv, app)))
  }

  ghost predicate Holder(d: DnsType, kv: Store, app: Uuid, r: Rule, s: Stage, x: Cell) {
    Either(d, app, Job(kv, app), Config(kv, app), r, s, x)
  }

  /** Because domains are unique, a cell has one rule of one application behind it. */
  lemma OneHolder(d: DnsType, kv: Store, app: Uuid, r: Rule, s: Stage, app': Uuid, r': Rule, s': Stage, x: Cell)
    requires DomainsUnique(kv) && Holder(d, kv, app, r, s, x) && Holder(d, kv, app', r', s', x)
    ensures app == app' && r.id == r'.id && KindOf(r) == KindOf(r')
  {
    if x.ServerRecord? {
      assert Claims(kv, app, r) && Claims(kv, app', r');
      assert x.host == Text.Host(r.content.domain) == Text.Host(r'.content.domain);
    }
  }
}
