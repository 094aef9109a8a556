/** What the stored objects of one client say about each other in every reachable state, that is, in every state that
    runs, edits and interference lead to. `Leftovers` says what of this survives a deletion request. */
module Agreement {
  import opened Objects
  import opened Api
  import opened Passwords
  import opened Contents
  import opened Pipeline
  import opened Histories
  import opened Prefix
  import opened Invariants

  lemma SaneFor(w0: World, steps: seq<Step>, p: Promise)
    requires Fresh(w0) && SpecKeeps(p, w0.cr.value.spec) && Keeps(p, steps)
    ensures Sane(Mine(Play(w0, steps)), w0.me, p) && Play(w0, steps).me == w0.me
  {
    HistoryIsSane(w0, steps, p);
  }

  /** One trust root. In every reachable state, under any faults, stale reads and spec edits, every certificate of the
      client is signed by the one CA of its namespace: the self-signed fallback never reaches the store. */
  lemma SingleTrustRoot(w0: World, steps: seq<Step>, app: App)
    requires Fresh(w0) && K(w0, Tls(app)) in Mine(Play(w0, steps))
    ensures var m := Mine(Play(w0, steps));
            && K(w0, CaSecret) in m && m[K(w0, CaSecret)].payload.CaPair?
            && m[K(w0, Tls(app))].payload.Certificate?
            && m[K(w0, Tls(app))].payload.issuer == SignedBy(m[K(w0, CaSecret)].payload.ca)
  {
    hide Play;
    SaneFor(w0, steps, NO_PROMISE);
  }

  /** Glauth's configuration carries the stored database password, under any faults and edits. */
  lemma GlauthCarriesStoredPassword(w0: World, steps: seq<Step>)
    requires Fresh(w0) && K(w0, GlauthConfig) in Mine(Play(w0, steps))
    ensures var m := Mine(Play(w0, steps));
            && K(w0, PostgresSecret) in m && m[K(w0, GlauthConfig)].payload.GlauthSettings?
            && m[K(w0, GlauthConfig)].payload.connection ==
               GlauthConnection(FieldOf(m[K(w0, PostgresSecret)], PostgresPassword))
  {
    hide Play, GlauthConnection;
    SaneFor(w0, steps, NO_PROMISE);
  }

  lemma HostText(app: App, domain: string)
    ensures IngressHost(app, domain) == (if app == RustfsApi then "s3" else AppName(app)) + "." + domain
  {
    assert "s3" + "." == "s3.";
  }

  /** The domain is never edited. */
  predicate DomainKept(domain: string, steps: seq<Step>)
  {
    forall s | s in steps && s.EditSpec? :: s.spec.domain == domain
  }

  /** Certificate coverage. While the domain is not edited, every stored ingress rule names a stored certificate
      that lists the rule's host. */
  lemma CertificateCoverage(w0: World, steps: seq<Step>, app: App)
    requires Fresh(w0) && DomainKept(w0.cr.value.spec.domain, steps) && K(w0, IngressFor(app)) in Mine(Play(w0, steps))
    ensures var m := Mine(Play(w0, steps));
            && m[K(w0, IngressFor(app))].payload.HostRule?
            && m[K(w0, IngressFor(app))].payload.host ==
               (if app == RustfsApi then "s3" else AppName(app)) + "." + w0.cr.value.spec.domain
            && var tls := K(w0, m[K(w0, IngressFor(app))].payload.tls);
            && tls in m && m[tls].payload.Certificate? && m[K(w0, IngressFor(app))].payload.host in m[tls].payload.dns
  {
    hide Play, Certified, Wired, Rendered, Labelled, HostOf, S3Host;
    var domain := w0.cr.value.spec.domain;
    var p := Promise(Some(domain), None, false, false);
    SaneFor(w0, steps, p);
    var dns := CertDns(IngressTls(app).app, domain);
    assert IngressHost(app, domain) == if app == RustfsApi then dns[1] else dns[0];
    HostText(app, domain);
  }

  /** The password overrides are never edited. */
  predicate OverridesKept(spec: Spec, steps: seq<Step>) {
    forall s | s in steps && s.EditSpec? ::
        PgOverride(s.spec) == PgOverride(spec) && S3Override(s.spec) == S3Override(spec)
  }

  /** In every run the reads in getOrCreatePassword tell the truth, where they are made at all. */
  predicate PasswordReadsTruthful(spec: Spec, steps: seq<Step>) {
    forall s | s in steps && s.RunOnce? ::
      && (|PgOverride(spec)| > 0 || Truthful(s.env, Reading(PostgresSecret, PasswordRead)))
      && (|S3Override(spec)| > 0 || Truthful(s.env, Reading(RustfsSecret, PasswordRead)))
  }

  /** In every run the two passwords can be generated, where they are generated at all. */
  predicate PasswordsGenerated(spec: Spec, steps: seq<Step>) {
    forall s | s in steps && s.RunOnce? ::
      && (|PgOverride(spec)| > 0 || NewPassword(s.env, ForPostgres).Some?)
      && (|S3Override(spec)| > 0 || NewPassword(s.env, ForRustfs).Some?)
  }

  /** Database and S3 agreement: the Ninegate secret carries exactly the passwords of the two root secrets.
      Without an override a consumer of the database URL even reads back exactly the stored password; with one it does
      so exactly when the override has no `@`. */
  lemma DatabaseAndS3Agree(w0: World, steps: seq<Step>)
    requires Fresh(w0) && OverridesKept(w0.cr.value.spec, steps)
    requires PasswordReadsTruthful(w0.cr.value.spec, steps) && PasswordsGenerated(w0.cr.value.spec, steps)
    requires K(w0, NinegateSecret) in Mine(Play(w0, steps))
    ensures var m := Mine(Play(w0, steps));
            && K(w0, PostgresSecret) in m && K(w0, RustfsSecret) in m
            && var pg := FieldOf(m[K(w0, PostgresSecret)], PostgresPassword);
               var ninegate := m[K(w0, NinegateSecret)];
            && FieldOf(ninegate, DatabaseUrl) == DatabaseUrlFor(pg)
            && FieldOf(ninegate, S3SecretKey) == FieldOf(m[K(w0, RustfsSecret)], RustfsPassword)
            && (ReadUrlPassword(FieldOf(ninegate, DatabaseUrl)) == Some(pg) <==> '@' !in PgOverride(w0.cr.value.spec))
  {
    hide Play, DatabaseUrlFor, NewPassword, ReadUrlPassword, Certified, Rendered, Wired, Labelled;
    var spec := w0.cr.value.spec;
    var p := Promise(None, Some((PgOverride(spec), S3Override(spec))), false, false);
    assert Keeps(p, steps);
    SaneFor(w0, steps, p);
    var m := Mine(Play(w0, steps));
    var pg := FieldOf(m[K(w0, PostgresSecret)], PostgresPassword);
    UrlRoundTrip(pg);
    if |PgOverride(spec)| == 0 {
      CharsetRoundTrips(pg);
    }
  }

  /** No run ever sees an admin password reference in the spec. */
  predicate NoPasswordRef(steps: seq<Step>) { forall s | s in steps && s.EditSpec? :: !s.spec.passwordSecretRef }

  /** In every run the cross-reads of the admin credentials tell the truth. */
  predicate AdminReadsTruthful(steps: seq<Step>) {
    forall s | s in steps && s.RunOnce? ::
      Truthful(s.env, Reading(AdminCredentials, NinegateRead)) && Truthful(s.env, Reading(AdminCredentials, DexRead))
  }

  /** Admin agreement: the generated admin password is the one in the Ninegate secret and the Dex bind password. */
  lemma AdminCredentialsAgree(w0: World, steps: seq<Step>)
    requires Fresh(w0) && !w0.cr.value.spec.passwordSecretRef && NoPasswordRef(steps) && AdminReadsTruthful(steps)
    ensures var m := Mine(Play(w0, steps));
            && (K(w0, NinegateSecret) in m ==>
                  && K(w0, AdminCredentials) in m
                  && FieldOf(m[K(w0, NinegateSecret)], AppAdminPassword) ==
                     FieldOf(m[K(w0, AdminCredentials)], AdminPassword) != "")
            && (K(w0, DexConfig) in m ==>
                  && K(w0, AdminCredentials) in m && m[K(w0, DexConfig)].payload.DexSettings?
                  && m[K(w0, DexConfig)].payload.bindPW == FieldOf(m[K(w0, AdminCredentials)], AdminPassword) != "")
  {
    hide Play, NewPassword, Certified, Rendered, Wired, Labelled;
    var p := Promise(None, None, true, false);
    assert Keeps(p, steps);
    SaneFor(w0, steps, p);
  }

  /** In every run the cross-read of the app secret tells the truth, and the app secret can be generated. */
  predicate LoginReadsTruthful(steps: seq<Step>) {
    forall s | s in steps && s.RunOnce? ::
        Truthful(s.env, Reading(NinegateSecret, DexRead)) && NewPassword(s.env, ForAppSecret).Some?
  }

  /** Dex's secret for the Ninegate client is the stored `app-secret`, with or without an admin password reference. */
  lemma DexCarriesAppSecret(w0: World, steps: seq<Step>)
    requires Fresh(w0) && LoginReadsTruthful(steps) && K(w0, DexConfig) in Mine(Play(w0, steps))
    ensures var m := Mine(Play(w0, steps));
            && K(w0, NinegateSecret) in m && m[K(w0, DexConfig)].payload.DexSettings?
            && m[K(w0, DexConfig)].payload.ninegateSecret == FieldOf(m[K(w0, NinegateSecret)], AppSecret) != ""
  {
    hide Play, NewPassword, Certified, Rendered, Wired, Labelled;
    var p := Promise(None, None, false, true);
    assert Keeps(p, steps);
    SaneFor(w0, steps, p);
  }
}
