/** The creation order, written out, and the proof that it is the plan of a run. */
module PlanOrder {
  import opened Objects
  import opened Api
  import opened Contents
  import opened ServiceStatuses
  import opened Pipeline
  import opened Prefix
  import opened Closure

  function When(c: bool, ids: seq<Id>): seq<Id> { if c then ids else [] }

  function SecretOrder(spec: Spec): seq<Id> {
    [TheNamespace] + When(!spec.passwordSecretRef, [AdminCredentials])
    + [PostgresSecret, RustfsSecret, NinegateSecret, CaSecret]
  }

  function CertOrder(f: ServiceFlags): seq<Id> {
    [Tls(Ninegate), Tls(Dex), Tls(Rustfs), Tls(Glauth)]
    + When(f.nextcloud, [Tls(Nextcloud)]) + When(f.wordpress, [Tls(Wordpress)]) + When(f.dolibarr, [Tls(Dolibarr)])
  }

  function ServiceIds(i: nat, f: ServiceFlags): seq<Id> {
    match i
    case 0 => When(f.postgresql, [PostgresConfig, PostgresSet, Service(Postgresql)])
    case 1 => When(f.redis, [Deployment(Redis), Service(Redis)])
    case 2 => When(f.rustfs, [RustfsData, Deployment(Rustfs), Service(Rustfs)])
    case 3 => When(f.ninegate, [Uploads, PublicUploads, Deployment(Ninegate), Service(Ninegate)])
    case 4 => When(f.glauth, [GlauthConfig, Deployment(Glauth), Service(Glauth)])
    case 5 => When(f.dex, [DexConfig, Deployment(Dex), Service(Dex)])
    case _ => []
  }

  function ServiceOrder(n: nat, f: ServiceFlags): seq<Id> {
    if n == 0 then [] else ServiceOrder(n - 1, f) + ServiceIds(n - 1, f)
  }

  function NetworkOrder(f: ServiceFlags): seq<Id> {
    [IngressFor(Ninegate), IngressFor(Dex), IngressFor(Rustfs), IngressFor(RustfsApi)]
    + When(f.nextcloud, [IngressFor(Nextcloud)]) + When(f.wordpress, [IngressFor(Wordpress)])
    + When(f.dolibarr, [IngressFor(Dolibarr)])
    + [LdapsRoute, EgressPolicy, IngressPolicy]
  }

  // ---- Small lists -------------------------------------------------------------------------------

  lemma One(a: Action)
    ensures PlanOf([a]) == New(a)
  {
    assert [a][1..] == [];
  }

  lemma Two(a: Action, b: Action)
    ensures PlanOf([a, b]) == New(a) + New(b)
  {
    One(b);
    assert [a, b][1..] == [b];
  }

  lemma Three(a: Action, b: Action, c: Action)
    ensures PlanOf([a, b, c]) == New(a) + New(b) + New(c)
  {
    Two(b, c);
    assert [a, b, c][1..] == [b, c];
  }

  lemma Four(a: Action, b: Action, c: Action, d: Action)
    ensures PlanOf([a, b, c, d]) == New(a) + New(b) + New(c) + New(d)
  {
    Three(b, c, d);
    assert [a, b, c, d][1..] == [b, c, d];
  }

  lemma Optional(front: seq<Action>, x: bool, a: Action, y: bool, b: Action, z: bool, c: Action)
    requires NewTarget(a).Some? && NewTarget(b).Some? && NewTarget(c).Some?
    ensures PlanOf(front + If(x, [a]) + If(y, [b]) + If(z, [c])) ==
            PlanOf(front) + When(x, [NewTarget(a).value]) + When(y, [NewTarget(b).value])
                + When(z, [NewTarget(c).value])
  {
    hide NewTarget;
    One(a);
    One(b);
    One(c);
    PlanOfAppend(front + If(x, [a]) + If(y, [b]), If(z, [c]));
    PlanOfAppend(front + If(x, [a]), If(y, [b]));
    PlanOfAppend(front, If(x, [a]));
  }

  // ---- The stages -----------------------------------------------------------------------------------

  lemma SecretsInOrder(spec: Spec)
    ensures PlanOf(SecretActions(spec)) == SecretOrder(spec)
  {
    hide PlanOf;
    var admin := [Enter(Blame("AdminCredentialsFailed", None))] + (AdminActions(spec) + [SetAdminSecretName]);
    Three(Enter(Blame("NamespaceFailed", None)), On(TheNamespace), SetNamespace);
    One(Enter(Blame("AdminCredentialsFailed", None)));
    One(SetAdminSecretName);
    One(On(AdminCredentials));
    Nothing();
    PlanOfAppend([Enter(Blame("AdminCredentialsFailed", None))], AdminActions(spec) + [SetAdminSecretName]);
    PlanOfAppend(AdminActions(spec), [SetAdminSecretName]);
    Two(Enter(Blame("RootSecretsFailed", None)), ReadPasswords);
    Two(On(PostgresSecret), On(RustfsSecret));
    PlanOfAppend([Enter(Blame("RootSecretsFailed", None)), ReadPasswords], [On(PostgresSecret), On(RustfsSecret)]);
    Two(Enter(Blame("NinegateSecretFailed", None)), On(NinegateSecret));
    Two(Enter(Blame("CAFailed", None)), On(CaSecret));
    PlanOfAppend(NinegateStage(), CaStage());
    PlanOfAppend(RootStage(), NinegateStage() + CaStage());
    PlanOfAppend(AdminStage(spec), RootStage() + (NinegateStage() + CaStage()));
    PlanOfAppend(NamespaceStage(), AdminStage(spec) + (RootStage() + (NinegateStage() + CaStage())));
  }

  lemma Nothing()
    ensures PlanOf([]) == []
  {
  }

  lemma CertActionsInOrder(f: ServiceFlags)
    ensures PlanOf(CertActions(f)) == CertOrder(f)
  {
    var core := [On(Tls(Ninegate)), On(Tls(Dex)), On(Tls(Rustfs)), On(Tls(Glauth))];
    hide PlanOf;
    Four(On(Tls(Ninegate)), On(Tls(Dex)), On(Tls(Rustfs)), On(Tls(Glauth)));
    Optional(core, f.nextcloud, On(Tls(Nextcloud)), f.wordpress, On(Tls(Wordpress)), f.dolibarr, On(Tls(Dolibarr)));
  }

  lemma CertsInOrder(spec: Spec)
    ensures PlanOf(CertStage(spec)) == CertOrder(FlagsOf(spec))
  {
    hide PlanOf, CertActions, CertOrder;
    var f := FlagsOf(spec);
    CertActionsInOrder(f);
    Two(LoadCa, NeedServices);
    One(Enter(Blame("CertFailed", None)));
    PlanOfAppend([LoadCa, NeedServices], CertActions(f));
    PlanOfAppend([Enter(Blame("CertFailed", None))], [LoadCa, NeedServices] + CertActions(f));
  }

  lemma ServiceInOrder(i: nat, f: ServiceFlags)
    ensures PlanOf(ServiceActions(i, f)) == ServiceIds(i, f)
  {
    hide PlanOf;
    Nothing();
    match i {
      case 0 => Three(On(PostgresConfig), On(PostgresSet), On(Service(Postgresql)));
      case 1 => Two(On(Deployment(Redis)), On(Service(Redis)));
      case 2 => Three(On(RustfsData), On(Deployment(Rustfs)), On(Service(Rustfs)));
      case 3 => Four(On(Uploads), On(PublicUploads), On(Deployment(Ninegate)), On(Service(Ninegate)));
      case 4 => Four(On(GlauthConfig), Ensure(Tls(Glauth), Fallback), On(Deployment(Glauth)), On(Service(Glauth)));
      case 5 => Four(On(DexConfig), Ensure(Tls(Dex), Fallback), On(Deployment(Dex)), On(Service(Dex)));
      case _ =>
    }
  }

  lemma {:induction false} StagesInOrder(n: nat, f: ServiceFlags)
    ensures PlanOf(ServiceStages(n, f)) == ServiceOrder(n, f)
  {
    hide ServiceStage, ServiceActions, ServiceIds, PlanOf;
    if n == 0 {
      Nothing();
    } else {
      StagesInOrder(n - 1, f);
      PlanOfAppend(ServiceStages(n - 1, f), ServiceStage(n - 1, f));
      PlanOfStage(n - 1, f);
      ServiceInOrder(n - 1, f);
    }
  }

  lemma RulesInOrder(f: ServiceFlags)
    ensures PlanOf(IngressRules(f)) ==
            [IngressFor(Ninegate), IngressFor(Dex), IngressFor(Rustfs), IngressFor(RustfsApi)]
            + When(f.nextcloud, [IngressFor(Nextcloud)]) + When(f.wordpress, [IngressFor(Wordpress)])
            + When(f.dolibarr, [IngressFor(Dolibarr)])
  {
    var core := [On(IngressFor(Ninegate)), On(IngressFor(Dex)), On(IngressFor(Rustfs)), On(IngressFor(RustfsApi))];
    hide PlanOf;
    Four(On(IngressFor(Ninegate)), On(IngressFor(Dex)), On(IngressFor(Rustfs)), On(IngressFor(RustfsApi)));
    Optional(core, f.nextcloud, On(IngressFor(Nextcloud)), f.wordpress, On(IngressFor(Wordpress)),
             f.dolibarr, On(IngressFor(Dolibarr)));
  }

  lemma NetworkInOrder(f: ServiceFlags)
    ensures PlanOf(IngressActions(f) + PolicyActions()) == NetworkOrder(f)
  {
    hide PlanOf, IngressRules;
    RulesInOrder(f);
    One(EnsureRoute);
    One(Enter(Blame("IngressFailed", None)));
    Three(Enter(Blame("NetworkPolicyFailed", None)), On(EgressPolicy), On(IngressPolicy));
    PlanOfAppend(IngressRules(f), [EnsureRoute]);
    PlanOfAppend([Enter(Blame("IngressFailed", None))], IngressRules(f) + [EnsureRoute]);
    PlanOfAppend(IngressActions(f), PolicyActions());
    assert PolicyActions() == [Enter(Blame("NetworkPolicyFailed", None)), On(EgressPolicy), On(IngressPolicy)];
  }

  /** The plan of a run, object by object: namespace, secrets, CA, certificates, the enabled services in start-up
      order, ingress rules, the LDAPS route, the network policies. */
  lemma PlanIs(spec: Spec)
    ensures var f := FlagsOf(spec);
            Plan(spec) == SecretOrder(spec) + CertOrder(f) + ServiceOrder(SERVICE_COUNT, f) + NetworkOrder(f)
  {
    hide PlanOf, SecretActions, CertStage, ServiceStages, IngressActions, PolicyActions;
    hide SecretOrder, CertOrder, ServiceOrder, NetworkOrder;
    var f := FlagsOf(spec);
    var network := IngressActions(f) + PolicyActions();
    PlanOfAppend(SecretActions(spec), CertStage(spec) + LateActions(f));
    PlanOfAppend(CertStage(spec), LateActions(f));
    PlanOfAppend(ServiceStages(SERVICE_COUNT, f), network);
    SecretsInOrder(spec);
    CertsInOrder(spec);
    StagesInOrder(SERVICE_COUNT, f);
    NetworkInOrder(f);
  }
}
