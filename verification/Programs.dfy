/** The controller as a program that makes one call at a time and goes on with the answer. */
module Programs {
  import opened Objects
  import opened Api
  import opened Passwords
  import opened DomainDn
  import opened Contents
  import opened ServiceStatuses
  import opened Pipeline
  import opened Deletion
  import opened NonInterference

  // ---- Calls ------------------------------------------------------------------------------------------

  /** A call on the API server. Objects are addressed inside the client's namespace, by the name every call passes. */
  datatype Call =
    | Fetch
    | GetObject(site: Site, id: Id)
    | CreateObject(site: Site, id: Id, obj: Obj)
    | DeleteObject(site: Site, id: Id)
    | ListObjects(kind: Kind)
    | WriteStatus(site: Site, cn: CR)
    | WriteMeta(site: Site, cn: CR)

  datatype Answer =
    | Fetched(resource: Result<CR>)
    | Gotten(reply: Reply)
    | Names(keys: Option<seq<Key>>)
    | Written(error: Option<Err>)

  function Perform(w: World, env: Env, call: Call): (World, Answer) {
    match call
    case Fetch => var (w', got) := ReadCr(w, env); (w', Fetched(got))
    case GetObject(s, id) => var (w', g) := Get(w, env, s, K(w, id)); (w', Gotten(g))
    case CreateObject(s, id, o) => var (w', e) := Create(w, env, s, K(w, id), o); (w', Written(e))
    case DeleteObject(s, id) => var (w', e) := Delete(w, env, s, K(w, id)); (w', Written(e))
    case ListObjects(kind) => var (w', keys) := List(w, env, kind); (w', Names(keys))
    case WriteStatus(s, cn) => var (w', e) := StatusUpdate(w, env, s, cn); (w', Written(e))
    case WriteMeta(s, cn) => var (w', e) := MetaUpdate(w, env, s, cn); (w', Written(e))
  }

  /** What the program does next, as a function of the answers only: it never sees the cluster. */
  datatype Program = Done | Ask(call: Call, next: Answer -> Program)

  function Resource(a: Answer): Result<CR> { if a.Fetched? then a.resource else Fail(Transient) }
  function ReplyOf(a: Answer): Reply { if a.Gotten? then a.reply else Missed(Transient) }
  function KeysOf(a: Answer): Option<seq<Key>> { if a.Names? then a.keys else None }
  function ErrorOf(a: Answer): Option<Err> { if a.Written? then a.error else None }

  // ---- The machine ------------------------------------------------------------------------------------

  /** A program in progress and the world it works on. */
  datatype Process = Process(program: Program, w: World)

  function Next(p: Process, env: Env): Process {
    match p.program
    case Done => p
    case Ask(call, next) => var (w, a) := Perform(p.w, env, call); Process(next(a), w)
  }

  /** After n calls. */
  function AfterCalls(p: Process, env: Env, n: nat): Process
    decreases n
  {
    if n == 0 then p else AfterCalls(Next(p, env), env, n - 1)
  }

  lemma {:induction false} AfterMore(p: Process, env: Env, m: nat, n: nat)
    ensures AfterCalls(p, env, m + n) == AfterCalls(AfterCalls(p, env, m), env, n)
    decreases m
  {
    hide Next;
    if m > 0 {
      AfterMore(Next(p, env), env, m - 1, n);
    }
  }

  lemma AfterOne(p: Process, env: Env)
    ensures AfterCalls(p, env, 1) == Next(p, env)
  {
    hide Next;
    assert AfterCalls(Next(p, env), env, 0) == Next(p, env);
  }

  lemma {:induction false} StaysDone(p: Process, env: Env, n: nat)
    requires p.program.Done?
    ensures AfterCalls(p, env, n) == p
    decreases n
  {
    if n > 0 {
      StaysDone(p, env, n - 1);
    }
  }

  /** A process gets from one point to another in so many calls. */
  ghost predicate Leads(p: Process, env: Env, n: nat, q: Process) { AfterCalls(p, env, n) == q }

  lemma Onwards(p: Process, env: Env, m: nat, q: Process, n: nat, r: Process)
    requires Leads(p, env, m, q) && Leads(q, env, n, r)
    ensures Leads(p, env, m + n, r)
  {
    AfterMore(p, env, m, n);
  }

  lemma Stay(p: Process, env: Env)
    ensures Leads(p, env, 0, p)
  {
  }

  // ---- Building and ensuring objects --------------------------------------------------------------------

  type Then<!T> = T -> Program

  /** What a program has of its environment: its random numbers and the order of its maps. */
  function Inputs(draws: map<Purpose, seq<Draw>>, sqlOrder: seq<App>): Env {
    PEACE.(draws := draws, sqlOrder := sqlOrder)
  }

  function InputsOf(env: Env): Env { Inputs(env.draws, env.sqlOrder) }

  /** Everything a program computes by itself depends on these only. */
  lemma SameInputs(env: Env)
    ensures forall p :: NewPassword(InputsOf(env), p) == NewPassword(env, p)
    ensures forall p :: DrawsFor(InputsOf(env), p) == DrawsFor(env, p)
    ensures SqlOrder(InputsOf(env)) == SqlOrder(env)
  {
  }

  lemma SameContents(cn: CR, loc: Locals, env: Env)
    ensures forall adminPass ::
            NinegateFields(cn, loc, InputsOf(env), adminPass) == NinegateFields(cn, loc, env, adminPass)
    ensures forall id :: PlainPayload(cn, loc, InputsOf(env), id) == PlainPayload(cn, loc, env, id)
    ensures AdminPayload(cn, InputsOf(env)) == AdminPayload(cn, env) && CaPayload(InputsOf(env)) == CaPayload(env)
    ensures forall app, place ::
            CertPayload(cn, loc, InputsOf(env), app, place) == CertPayload(cn, loc, env, app, place)
    ensures RouteObject(cn, loc, InputsOf(env)) == RouteObject(cn, loc, env)
  {
    SameInputs(env);
    hide NewPassword, SqlOrder, DrawsFor;
  }

  function OnReply(k: Then<Reply>): Then<Answer> { (a: Answer) => k(ReplyOf(a)) }
  function OnError(k: Then<Option<Err>>): Then<Answer> { (a: Answer) => k(ErrorOf(a)) }
  function OnKeys(k: Then<Option<seq<Key>>>): Then<Answer> { (a: Answer) => k(KeysOf(a)) }
  function OnResource(k: Then<Result<CR>>): Then<Answer> { (a: Answer) => k(Resource(a)) }

  function GetThen(s: Site, id: Id, k: Then<Reply>): Program { Ask(GetObject(s, id), OnReply(k)) }
  function CreateThen(s: Site, id: Id, o: Obj, k: Then<Option<Err>>): Program
  {
    Ask(CreateObject(s, id, o), OnError(k))
  }
  function DeleteThen(s: Site, id: Id, k: Then<Option<Err>>): Program { Ask(DeleteObject(s, id), OnError(k)) }
  function ListThen(kind: Kind, k: Then<Option<seq<Key>>>): Program { Ask(ListObjects(kind), OnKeys(k)) }
  function StatusThen(s: Site, cn: CR, k: Then<Option<Err>>): Program { Ask(WriteStatus(s, cn), OnError(k)) }
  function MetaThen(s: Site, cn: CR, k: Then<Option<Err>>): Program { Ask(WriteMeta(s, cn), OnError(k)) }
  function FetchThen(k: Then<Result<CR>>): Program { Ask(Fetch, OnResource(k)) }

  lemma AskLeads(w: World, env: Env, call: Call, next: Then<Answer>)
    ensures var (w', a) := Perform(w, env, call); Leads(Process(Ask(call, next), w), env, 1, Process(next(a), w'))
  {
    hide Perform;
    AfterOne(Process(Ask(call, next), w), env);
  }

  lemma GetLeads(w: World, env: Env, s: Site, id: Id, k: Then<Reply>)
    ensures var (w', g) := Get(w, env, s, K(w, id)); Leads(Process(GetThen(s, id, k), w), env, 1, Process(k(g), w'))
  {
    hide Get, Leads;
    AskLeads(w, env, GetObject(s, id), OnReply(k));
    var g := Get(w, env, s, K(w, id)).1;
    assert ReplyOf(Gotten(g)) == g;
  }

  lemma CreateLeads(w: World, env: Env, s: Site, id: Id, o: Obj, k: Then<Option<Err>>)
    ensures var (w', e) := Create(w, env, s, K(w, id), o);
            Leads(Process(CreateThen(s, id, o, k), w), env, 1, Process(k(e), w'))
  {
    hide Create, Leads;
    AskLeads(w, env, CreateObject(s, id, o), OnError(k));
    var e := Create(w, env, s, K(w, id), o).1;
    assert ErrorOf(Written(e)) == e;
  }

  lemma DeleteLeads(w: World, env: Env, s: Site, id: Id, k: Then<Option<Err>>)
    ensures var (w', e) := Delete(w, env, s, K(w, id));
            Leads(Process(DeleteThen(s, id, k), w), env, 1, Process(k(e), w'))
  {
    hide Delete, Leads;
    AskLeads(w, env, DeleteObject(s, id), OnError(k));
    var e := Delete(w, env, s, K(w, id)).1;
    assert ErrorOf(Written(e)) == e;
  }

  lemma ListLeads(w: World, env: Env, kind: Kind, k: Then<Option<seq<Key>>>)
    ensures var (w', keys) := List(w, env, kind); Leads(Process(ListThen(kind, k), w), env, 1, Process(k(keys), w'))
  {
    hide List, Leads;
    AskLeads(w, env, ListObjects(kind), OnKeys(k));
    var keys := List(w, env, kind).1;
    assert KeysOf(Names(keys)) == keys;
  }

  lemma StatusLeads(w: World, env: Env, s: Site, cn: CR, k: Then<Option<Err>>)
    ensures var (w', e) := StatusUpdate(w, env, s, cn);
            Leads(Process(StatusThen(s, cn, k), w), env, 1, Process(k(e), w'))
  {
    hide StatusUpdate, Leads;
    AskLeads(w, env, WriteStatus(s, cn), OnError(k));
    var e := StatusUpdate(w, env, s, cn).1;
    assert ErrorOf(Written(e)) == e;
  }

  lemma MetaLeads(w: World, env: Env, s: Site, cn: CR, k: Then<Option<Err>>)
    ensures var (w', e) := MetaUpdate(w, env, s, cn); Leads(Process(MetaThen(s, cn, k), w), env, 1, Process(k(e), w'))
  {
    hide MetaUpdate, Leads;
    AskLeads(w, env, WriteMeta(s, cn), OnError(k));
    var e := MetaUpdate(w, env, s, cn).1;
    assert ErrorOf(Written(e)) == e;
  }

  lemma FetchLeads(w: World, env: Env, k: Then<Result<CR>>)
    ensures var (w', got) := ReadCr(w, env); Leads(Process(FetchThen(k), w), env, 1, Process(k(got), w'))
  {
    hide ReadCr, Leads;
    AskLeads(w, env, Fetch, OnResource(k));
    var got := ReadCr(w, env).1;
    assert Resource(Fetched(got)) == got;
  }

  // ---- Building and ensuring objects --------------------------------------------------------------------

  /** The field, a default, or a fresh password. */
  function Chosen(g: Reply, own: Env, field: Field, p: Purpose): string {
    match g
    case Found(o) => if |FieldOf(o, field)| > 0 then FieldOf(o, field) else "changeme"
    case Missed(_) => OrEmpty(NewPassword(own, p))
  }

  function OnChosen(own: Env, field: Field, p: Purpose, k: Then<string>): Then<Reply> {
    (g: Reply) => k(Chosen(g, own, field, p))
  }

  function ReadThen(own: Env, id: Id, place: Place, field: Field, p: Purpose, k: Then<string>): Program {
    GetThen(Reading(id, place), id, OnChosen(own, field, p, k))
  }

  lemma ReadLeads(w: World, env: Env, id: Id, place: Place, field: Field, p: Purpose, k: Then<string>)
    ensures var (w', x) := ReadOr(w, env, id, place, field, p);
            Leads(Process(ReadThen(InputsOf(env), id, place, field, p, k), w), env, 1, Process(k(x), w'))
  {
    SameInputs(env);
    hide Get, NewPassword, Leads;
    GetLeads(w, env, Reading(id, place), id, OnChosen(InputsOf(env), field, p, k));
    var g := Get(w, env, Reading(id, place), K(w, id)).1;
    assert Chosen(g, InputsOf(env), field, p) == Chosen(g, env, field, p);
  }

  function OnNinegateAdmin(cn: CR, loc: Locals, own: Env, k: Then<Result<Payload>>): Then<string> {
    (adminPass: string) => k(Ok(Data(NinegateFields(cn, loc, own, adminPass))))
  }

  function OnDatabaseSecret(cn: CR, k: Then<Result<Payload>>): Then<Reply> {
    (g: Reply) => match g
      case Missed(e) => k(Fail(Wrapped(FindPostgresSecret, e)))
      case Found(o) => k(Ok(GlauthSettings(GlauthConnection(FieldOf(o, PostgresPassword)), DnOf(cn.spec.domain))))
  }

  function OnDexAdmin(cn: CR, own: Env, k: Then<Result<Payload>>): Then<string> {
    (adminPass: string) =>
        ReadThen(own, NinegateSecret, DexRead, AppSecret, ForDexClient, OnClientSecret(cn, own, adminPass, k))
  }

  function OnClientSecret(cn: CR, own: Env, adminPass: string, k: Then<Result<Payload>>): Then<string> {
    (clientSecret: string) =>
      k(Ok(DexSettings(adminPass, clientSecret,
                       OrEmpty(NewPassword(own, ForNextcloudClient)), OrEmpty(NewPassword(own, ForFilesClient)),
                       DnOf(cn.spec.domain))))
  }

  function PayloadThen(cn: CR, loc: Locals, own: Env, id: Id, place: Place, k: Then<Result<Payload>>): Program {
    match id
    case NinegateSecret =>
      ReadThen(own, AdminCredentials, NinegateRead, AdminPassword, ForNinegateAdmin, OnNinegateAdmin(cn, loc, own, k))
    case GlauthConfig => GetThen(Reading(PostgresSecret, GlauthRead), PostgresSecret, OnDatabaseSecret(cn, k))
    case DexConfig => ReadThen(own, AdminCredentials, DexRead, AdminPassword, ForDexAdmin, OnDexAdmin(cn, own, k))
    case AdminCredentials => k(AdminPayload(cn, own))
    case CaSecret => k(CaPayload(own))
    case Tls(app) => k(CertPayload(cn, loc, own, app, place))
    case _ => k(Ok(PlainPayload(cn, loc, own, id)))
  }

  lemma PayloadLeads(w: World, cn: CR, loc: Locals, env: Env, id: Id, place: Place, k: Then<Result<Payload>>)
      returns (n: nat)
    ensures var (w', x) := BuildPayload(w, cn, loc, env, id, place);
            Leads(Process(PayloadThen(cn, loc, InputsOf(env), id, place, k), w), env, n, Process(k(x), w'))
  {
    SameContents(cn, loc, env);
    hide Get, ReadOr, ReadThen, GetThen, NewPassword, Leads, NinegateFields, PlainPayload, GlauthConnection, DnOf;
    hide CertPayload, AdminPayload, CaPayload;
    var p := Process(PayloadThen(cn, loc, InputsOf(env), id, place, k), w);
    match id {
      case NinegateSecret =>
        n := 1;
        ReadLeads(w, env, AdminCredentials, NinegateRead, AdminPassword, ForNinegateAdmin,
            OnNinegateAdmin(cn, loc, InputsOf(env), k));
      case GlauthConfig =>
        n := 1;
        GetLeads(w, env, Reading(PostgresSecret, GlauthRead), PostgresSecret, OnDatabaseSecret(cn, k));
      case DexConfig =>
        n := 2;
        DexLeads(w, cn, env, k);
      case _ =>
        n := 0;
        Stay(p, env);
    }
  }

  lemma DexLeads(w: World, cn: CR, env: Env, k: Then<Result<Payload>>)
    ensures var (w', x) := DexPayload(w, cn, env);
            Leads(Process(ReadThen(InputsOf(env), AdminCredentials, DexRead, AdminPassword, ForDexAdmin,
                OnDexAdmin(cn, InputsOf(env), k)), w),
                  env, 2, Process(k(x), w'))
  {
    SameInputs(env);
    hide ReadOr, ReadThen, NewPassword, Leads, DnOf;
    var onward := OnDexAdmin(cn, InputsOf(env), k);
    ReadLeads(w, env, AdminCredentials, DexRead, AdminPassword, ForDexAdmin, onward);
    var (w1, adminPass) := ReadOr(w, env, AdminCredentials, DexRead, AdminPassword, ForDexAdmin);
    var done := OnClientSecret(cn, InputsOf(env), adminPass, k);
    ReadLeads(w1, env, NinegateSecret, DexRead, AppSecret, ForDexClient, done);
    var (w2, clientSecret) := ReadOr(w1, env, NinegateSecret, DexRead, AppSecret, ForDexClient);
    Onwards(Process(ReadThen(InputsOf(env), AdminCredentials, DexRead, AdminPassword, ForDexAdmin, onward), w), env,
            1, Process(onward(adminPass), w1), 1, Process(done(clientSecret), w2));
  }

  /** With the payload: create the object, or report the error. */
  function OnPayload(cn: CR, id: Id, place: Place, k: Then<Option<Err>>): Then<Result<Payload>> {
    (x: Result<Payload>) => match x
      case Fail(e) => k(Some(e))
      case Ok(p) => CreateThen(Creating(id, place), id, Obj(LabelsFor(cn.name, id, place), p), k)
  }

  function OnFound(cn: CR, loc: Locals, own: Env, id: Id, place: Place, k: Then<Option<Err>>): Then<Reply> {
    (g: Reply) =>
      if g.Found? then k(None)
      else if g.error != NotFound then k(Some(g.error))
      else PayloadThen(cn, loc, own, id, place, OnPayload(cn, id, place, k))
  }

  function EnsureThen(cn: CR, loc: Locals, own: Env, id: Id, place: Place, k: Then<Option<Err>>): Program {
    GetThen(Reading(id, place), id, OnFound(cn, loc, own, id, place, k))
  }

  lemma EnsureLeads(w: World, cn: CR, loc: Locals, env: Env, id: Id, place: Place, k: Then<Option<Err>>)
      returns (n: nat)
    ensures var (w', e) := EnsureObject(w, cn, loc, env, id, place);
            Leads(Process(EnsureThen(cn, loc, InputsOf(env), id, place, k), w), env, n, Process(k(e), w'))
  {
    hide Get, Create, BuildPayload, GetThen, CreateThen, PayloadThen, Leads, LabelsFor;
    n := 1;
    var p := Process(EnsureThen(cn, loc, InputsOf(env), id, place, k), w);
    var onward := OnFound(cn, loc, InputsOf(env), id, place, k);
    GetLeads(w, env, Reading(id, place), id, onward);
    var (w1, g) := Get(w, env, Reading(id, place), K(w, id));
    if g.Missed? && g.error == NotFound {
      var more := BuildAndCreate(w1, cn, loc, env, id, place, k);
      var (w2, o) := Build(w1, cn, loc, env, id, place);
      var (w3, e) := if o.Ok? then Create(w2, env, Creating(id, place), K(w, id), o.value) else (w2, Some(o.error));
      Onwards(p, env, 1, Process(onward(g), w1), more, Process(k(e), w3));
      n := 1 + more;
    }
  }

  lemma BuildAndCreate(w: World, cn: CR, loc: Locals, env: Env, id: Id, place: Place, k: Then<Option<Err>>)
      returns (n: nat)
    ensures var (w2, o) := Build(w, cn, loc, env, id, place);
            var (w3, e) := if o.Ok? then Create(w2, env, Creating(id, place), K(w, id), o.value)
                else (w2, Some(o.error));
            Leads(Process(PayloadThen(cn, loc, InputsOf(env), id, place, OnPayload(cn, id, place, k)), w), env, n,
                Process(k(e), w3))
  {
    hide Create, BuildPayload, CreateThen, PayloadThen, Leads, LabelsFor;
    var onward := OnPayload(cn, id, place, k);
    n := PayloadLeads(w, cn, loc, env, id, place, onward);
    var (w2, x) := BuildPayload(w, cn, loc, env, id, place);
    assert Build(w, cn, loc, env, id, place).0 == w2;
    if x.Ok? {
      var o := Obj(LabelsFor(cn.name, id, place), x.value);
      CreateLeads(w2, env, Creating(id, place), id, o, k);
      var (w3, e) := Create(w2, env, Creating(id, place), K(w2, id), o);
      Onwards(Process(PayloadThen(cn, loc, InputsOf(env), id, place, onward), w), env, n, Process(onward(x), w2), 1,
          Process(k(e), w3));
      n := n + 1;
    }
  }

  // ---- One action ---------------------------------------------------------------------------------------

  /** A run without its world: what the controller process itself remembers. */
  datatype Control = Control(cn: CR, loc: Locals, blame: Blame, out: Outcome)

  function ControlOf(r: Run): Control { Control(r.cn, r.loc, r.blame, r.out) }

  function OnEnsured(c: Control, k: Then<Control>): Then<Option<Err>> {
    (e: Option<Err>) => k(c.(out := OutcomeOf(e)))
  }

  function OnRouteLookup(c: Control, own: Env, k: Then<Control>): Then<Reply> {
    (g: Reply) =>
      if g.Found? then k(c)
      else CreateThen(Creating(LdapsRoute, Pipeline), LdapsRoute, RouteObject(c.cn, c.loc, own), OnEnsured(c, k))
  }

  function OnStored(own: Env, field: Field, p: Purpose, k: Then<string>): Then<Reply> {
    (g: Reply) => if g.Found? && |FieldOf(g.obj, field)| > 0 then k(FieldOf(g.obj, field))
        else k(OrEmpty(NewPassword(own, p)))
  }

  function PasswordThen(own: Env, override: string, id: Id, field: Field, p: Purpose, k: Then<string>): Program {
    if |override| > 0 then k(override) else GetThen(Reading(id, PasswordRead), id, OnStored(own, field, p, k))
  }

  function OnPg(c: Control, own: Env, k: Then<Control>): Then<string> {
    (pg: string) => PasswordThen(own, S3Override(c.cn.spec), RustfsSecret, RustfsPassword, ForRustfs, OnS3(c, pg, k))
  }

  function OnS3(c: Control, pg: string, k: Then<Control>): Then<string> {
    (s3: string) => k(c.(loc := c.loc.(pg := pg, s3 := s3)))
  }

  function OnCa(c: Control, k: Then<Control>): Then<Reply> {
    (g: Reply) => match g
      case Missed(e) => k(c.(out := Stopped(Wrapped(LoadCaSecret, e))))
      case Found(o) =>
        if o.payload.CaPair? then k(c.(loc := c.loc.(ca := Some(o.payload.ca))))
        else k(c.(out := Stopped(Wrapped(LoadCaSecret, BadCA))))
  }

  function ExecThen(c: Control, own: Env, a: Action, k: Then<Control>): Program {
    if c.out != Going then k(c) else
      match a
      case Enter(blame) => k(c.(blame := blame))
      case Ensure(id, place) => EnsureThen(c.cn, c.loc, own, id, place, OnEnsured(c, k))
      case EnsureRoute => GetThen(Reading(LdapsSecret, Pipeline), LdapsSecret, OnRouteLookup(c, own, k))
      case SetNamespace => k(c.(cn := c.cn.(status := c.cn.status.(namespace := NsName(c.cn.name)))))
      case SetAdminSecretName => k(c.(cn := c.cn.(status := c.cn.status.(adminSecretName := "admin-credentials"))))
      case ReadPasswords =>
        PasswordThen(own, PgOverride(c.cn.spec), PostgresSecret, PostgresPassword, ForPostgres, OnPg(c, own, k))
      case LoadCa => GetThen(Reading(CaSecret, CaRead), CaSecret, OnCa(c, k))
      case NeedServices => k(if c.cn.spec.services.None? then c.(out := Panicked) else c)
      case ServiceDone(i) =>
        k(c.(cn := c.cn.(status := c.cn.status.(services := Upsert(c.cn.status.services, ServiceName(i), true, None)))))
  }

  lemma PasswordLeads(w: World, env: Env, override: string, id: Id, field: Field, p: Purpose, k: Then<string>)
      returns (n: nat)
    ensures var (w', x) := GetOrCreatePassword(w, env, override, id, field, p);
            Leads(Process(PasswordThen(InputsOf(env), override, id, field, p, k), w), env, n, Process(k(x), w'))
  {
    SameInputs(env);
    hide Get, GetThen, NewPassword, Leads;
    if |override| > 0 {
      n := 0;
      Stay(Process(k(override), w), env);
    } else {
      n := 1;
      GetLeads(w, env, Reading(id, PasswordRead), id, OnStored(InputsOf(env), field, p, k));
    }
  }

  lemma ReadPasswordsLeads(r: Run, env: Env, k: Then<Control>) returns (n: nat)
    requires r.out == Going
    ensures var r' := Exec(r, env, ReadPasswords);
            Leads(Process(ExecThen(ControlOf(r), InputsOf(env), ReadPasswords, k), r.w), env, n,
                Process(k(ControlOf(r')), r'.w))
  {
    hide GetOrCreatePassword, PasswordThen, Leads;
    var c := ControlOf(r);
    var onward := OnPg(c, InputsOf(env), k);
    n := PasswordLeads(r.w, env, PgOverride(r.cn.spec), PostgresSecret, PostgresPassword, ForPostgres, onward);
    var (w1, pg) := GetOrCreatePassword(r.w, env, PgOverride(r.cn.spec), PostgresSecret, PostgresPassword, ForPostgres);
    var more := PasswordLeads(w1, env, S3Override(r.cn.spec), RustfsSecret, RustfsPassword, ForRustfs, OnS3(c, pg, k));
    var r' := Exec(r, env, ReadPasswords);
    Onwards(Process(ExecThen(c, InputsOf(env), ReadPasswords, k), r.w), env, n, Process(onward(pg), w1), more,
            Process(k(ControlOf(r')), r'.w));
    n := n + more;
  }

  lemma RouteLeads(r: Run, env: Env, k: Then<Control>) returns (n: nat)
    requires r.out == Going
    ensures var r' := Exec(r, env, EnsureRoute);
            Leads(Process(ExecThen(ControlOf(r), InputsOf(env), EnsureRoute, k), r.w), env, n,
                Process(k(ControlOf(r')), r'.w))
  {
    SameContents(r.cn, r.loc, env);
    hide Get, GetThen, Create, CreateThen, RouteObject, Leads;
    var c := ControlOf(r);
    var onward := OnRouteLookup(c, InputsOf(env), k);
    n := 1;
    GetLeads(r.w, env, Reading(LdapsSecret, Pipeline), LdapsSecret, onward);
    var (w1, g) := Get(r.w, env, Reading(LdapsSecret, Pipeline), K(r.w, LdapsSecret));
    var r' := Exec(r, env, EnsureRoute);
    if g.Missed? {
      CreateLeads(w1, env, Creating(LdapsRoute, Pipeline), LdapsRoute, RouteObject(r.cn, r.loc, env), OnEnsured(c, k));
      Onwards(Process(ExecThen(c, InputsOf(env), EnsureRoute, k), r.w), env, 1, Process(onward(g), w1), 1,
          Process(k(ControlOf(r')), r'.w));
      n := 2;
    }
  }

  lemma LoadCaLeads(r: Run, env: Env, k: Then<Control>)
    requires r.out == Going
    ensures var r' := Exec(r, env, LoadCa);
            Leads(Process(ExecThen(ControlOf(r), InputsOf(env), LoadCa, k), r.w), env, 1,
                Process(k(ControlOf(r')), r'.w))
  {
    hide Get, GetThen, Leads;
    GetLeads(r.w, env, Reading(CaSecret, CaRead), CaSecret, OnCa(ControlOf(r), k));
  }

  lemma EnsureActionLeads(r: Run, env: Env, id: Id, place: Place, k: Then<Control>) returns (n: nat)
    requires r.out == Going
    ensures var r' := Exec(r, env, Ensure(id, place));
            Leads(Process(ExecThen(ControlOf(r), InputsOf(env), Ensure(id, place), k), r.w), env, n,
                Process(k(ControlOf(r')), r'.w))
  {
    hide EnsureObject, EnsureThen, Leads;
    n := EnsureLeads(r.w, r.cn, r.loc, env, id, place, OnEnsured(ControlOf(r), k));
  }

  lemma SilentLeads(r: Run, env: Env, a: Action, k: Then<Control>)
    requires r.out != Going || !(a.Ensure? || a.EnsureRoute? || a.ReadPasswords? || a.LoadCa?)
    ensures var r' := Exec(r, env, a);
            Leads(Process(ExecThen(ControlOf(r), InputsOf(env), a, k), r.w), env, 0, Process(k(ControlOf(r')), r'.w))
  {
    hide Leads, Upsert, ServiceName;
    var r' := Exec(r, env, a);
    assert ExecThen(ControlOf(r), InputsOf(env), a, k) == k(ControlOf(r'));
    Stay(Process(k(ControlOf(r')), r'.w), env);
  }

  /** Each action, made call by call, does what it does as one function. */
  lemma ExecLeads(r: Run, env: Env, a: Action, k: Then<Control>) returns (n: nat)
    ensures var r' := Exec(r, env, a);
            Leads(Process(ExecThen(ControlOf(r), InputsOf(env), a, k), r.w), env, n, Process(k(ControlOf(r')), r'.w))
  {
    hide Exec, ExecThen, Leads;
    if r.out == Going && a.Ensure? {
      n := EnsureActionLeads(r, env, a.id, a.place, k);
    } else if r.out == Going && a.EnsureRoute? {
      n := RouteLeads(r, env, k);
    } else if r.out == Going && a.ReadPasswords? {
      n := ReadPasswordsLeads(r, env, k);
    } else if r.out == Going && a.LoadCa? {
      n := 1;
      LoadCaLeads(r, env, k);
    } else {
      n := 0;
      SilentLeads(r, env, a, k);
    }
  }

  // ---- The pipeline and its ending ------------------------------------------------------------------------

  function RunThen(c: Control, own: Env, acts: seq<Action>, k: Then<Control>): Program
    decreases |acts|, 0
  {
    if acts == [] then k(c) else ExecThen(c, own, acts[0], OnRun(own, acts[1..], k))
  }

  function OnRun(own: Env, acts: seq<Action>, k: Then<Control>): Then<Control>
    decreases |acts|, 1
  {
    (c: Control) => RunThen(c, own, acts, k)
  }

  lemma {:induction false} RunLeads(r: Run, env: Env, acts: seq<Action>, k: Then<Control>) returns (n: nat)
    ensures var r' := RunAll(r, env, acts);
            Leads(Process(RunThen(ControlOf(r), InputsOf(env), acts, k), r.w), env, n, Process(k(ControlOf(r')), r'.w))
    decreases |acts|
  {
    hide Exec, ExecThen, Leads, ControlOf;
    if acts == [] {
      n := 0;
      Stay(Process(k(ControlOf(r)), r.w), env);
    } else {
      var onward := OnRun(InputsOf(env), acts[1..], k);
      var r1, r' := Exec(r, env, acts[0]), RunAll(r, env, acts);
      n := ExecLeads(r, env, acts[0], onward);
      var more := RunLeads(r1, env, acts[1..], k);
      assert onward(ControlOf(r1)) == RunThen(ControlOf(r1), InputsOf(env), acts[1..], k);
      Onwards(Process(RunThen(ControlOf(r), InputsOf(env), acts, k), r.w), env, n, Process(onward(ControlOf(r1)), r1.w),
          more,
              Process(k(ControlOf(r')), r'.w));
      n := n + more;
    }
  }

  function OnLastCall(): Then<Option<Err>> { (e: Option<Err>) => Done }

  function SetFailedThen(cn: CR, reason: string, error: Err): Program {
    StatusThen(FailedWrite, cn.(status := FailedStatus(cn.status, reason, error)), OnLastCall())
  }

  function OnReported(cn: CR, reason: string, error: Err): Then<Option<Err>> {
    (e: Option<Err>) => SetFailedThen(Refreshed(cn, e), reason, error)
  }

  function Reported(cn: CR, i: nat, error: Err): CR {
    cn.(status := cn.status.(services := Upsert(cn.status.services, ServiceName(i), false, Some(error))))
  }

  function FinishThen(c: Control): Program {
    match c.out
    case Panicked => Done
    case Going => StatusThen(ReadyWrite, c.cn.(status := ReadyStatus(c.cn.status, c.cn.spec)), OnLastCall())
    case Stopped(error) =>
      if c.blame.svc.None? then SetFailedThen(c.cn, c.blame.reason, error)
      else
        var cn1 := Reported(c.cn, c.blame.svc.value, error);
        StatusThen(ServiceWrite, cn1, OnReported(cn1, c.blame.reason, error))
  }

  lemma FinishLeads(r: Run, env: Env) returns (n: nat)
    ensures Leads(Process(FinishThen(ControlOf(r)), r.w), env, n, Process(Done, Finish(r, env)))
  {
    hide StatusUpdate, StatusThen, Leads, FailedStatus, ReadyStatus, Upsert, ServiceName;
    match r.out {
      case Panicked =>
        n := 0;
        Stay(Process(Done, r.w), env);
      case Going =>
        n := 1;
        StatusLeads(r.w, env, ReadyWrite, r.cn.(status := ReadyStatus(r.cn.status, r.cn.spec)), OnLastCall());
      case Stopped(error) =>
        n := 1;
        if r.blame.svc.None? {
          StatusLeads(r.w, env, FailedWrite, r.cn.(status := FailedStatus(r.cn.status, r.blame.reason, error)),
              OnLastCall());
        } else {
          var cn1 := Reported(r.cn, r.blame.svc.value, error);
          var onward := OnReported(cn1, r.blame.reason, error);
          StatusLeads(r.w, env, ServiceWrite, cn1, onward);
          var (w1, e) := StatusUpdate(r.w, env, ServiceWrite, cn1);
          var cn2 := Refreshed(cn1, e);
          StatusLeads(w1, env, FailedWrite, cn2.(status := FailedStatus(cn2.status, r.blame.reason, error)),
              OnLastCall());
          Onwards(Process(FinishThen(ControlOf(r)), r.w), env, 1, Process(onward(e), w1), 1,
              Process(Done, Finish(r, env)));
          n := 2;
        }
    }
  }

  function OnPipelineEnd(): Then<Control> { (c: Control) => FinishThen(c) }

  function PipelineThen(cn: CR, own: Env): Program {
    RunThen(Control(cn, NO_LOCALS, Blame("", None), Going), own, Actions(cn.spec), OnPipelineEnd())
  }

  lemma PipelineLeads(w: World, cn: CR, env: Env) returns (n: nat)
    ensures Leads(Process(PipelineThen(cn, InputsOf(env)), w), env, n,
                  Process(Done, Finish(RunAll(Start(w, cn), env, Actions(cn.spec)), env)))
  {
    hide RunAll, RunThen, Actions, Finish, FinishThen, Leads;
    var r := RunAll(Start(w, cn), env, Actions(cn.spec));
    n := RunLeads(Start(w, cn), env, Actions(cn.spec), OnPipelineEnd());
    var more := FinishLeads(r, env);
    Onwards(Process(PipelineThen(cn, InputsOf(env)), w), env, n, Process(FinishThen(ControlOf(r)), r.w), more,
            Process(Done, Finish(r, env)));
    n := n + more;
  }

  function OnProvisioning(cn: CR, own: Env): Then<Option<Err>> {
    (e: Option<Err>) => if e.Some? then Done else PipelineThen(Refreshed(cn, e), own)
  }

  function ProvisionThen(cn: CR, own: Env): Program {
    if cn.status.phase == Phase.Ready then Done
    else if cn.status.phase == NoPhase || cn.status.phase == Pending then
      var cn1 := cn.(status := cn.status.(phase := Provisioning));
      StatusThen(ProvisioningWrite, cn1, OnProvisioning(cn1, own))
    else PipelineThen(cn, own)
  }

  lemma ProvisionLeads(w: World, cn: CR, env: Env) returns (n: nat)
    ensures Leads(Process(ProvisionThen(cn, InputsOf(env)), w), env, n, Process(Done, ProvisionPhase(w, env, cn)))
  {
    hide RunAll, Actions, Finish, StatusUpdate, StatusThen, PipelineThen, Leads;
    var p := Process(ProvisionThen(cn, InputsOf(env)), w);
    if cn.status.phase == Phase.Ready {
      n := 0;
      Stay(p, env);
    } else if cn.status.phase == NoPhase || cn.status.phase == Pending {
      var cn1 := cn.(status := cn.status.(phase := Provisioning));
      var onward := OnProvisioning(cn1, InputsOf(env));
      n := 1;
      StatusLeads(w, env, ProvisioningWrite, cn1, onward);
      var (w1, e) := StatusUpdate(w, env, ProvisioningWrite, cn1);
      if e.None? {
        var more := PipelineLeads(w1, Refreshed(cn1, e), env);
        Onwards(p, env, 1, Process(onward(e), w1), more, Process(Done, ProvisionPhase(w, env, cn)));
        n := 1 + more;
      }
    } else {
      n := PipelineLeads(w, cn, env);
    }
  }

  // ---- Deletion ---------------------------------------------------------------------------------------------

  function EachThen(keys: seq<Key>, k: Program): Program
    decreases |keys|, 0
  {
    if keys == [] then k else DeleteThen(Deleting(keys[0]), keys[0].id, OnIgnored(keys[1..], k))
  }

  function OnIgnored(keys: seq<Key>, k: Program): Then<Option<Err>>
    decreases |keys|, 1
  {
    (e: Option<Err>) => EachThen(keys, k)
  }

  lemma {:induction false} EachLeads(w: World, env: Env, keys: seq<Key>, k: Program) returns (n: nat)
    requires forall key | key in keys :: Own(w.me, key)
    ensures Leads(Process(EachThen(keys, k), w), env, n, Process(k, DeleteEach(w, env, keys)))
    decreases |keys|
  {
    hide Delete, DeleteThen, Leads;
    if keys == [] {
      n := 0;
      Stay(Process(k, w), env);
    } else {
      var onward := OnIgnored(keys[1..], k);
      assert keys[0] in keys && keys[0] == K(w, keys[0].id);
      DeleteLeads(w, env, Deleting(keys[0]), keys[0].id, onward);
      var (w1, e) := Delete(w, env, Deleting(keys[0]), keys[0]);
      DeleteKeepsClient(w, env, Deleting(keys[0]), keys[0]);
      n := EachLeads(w1, env, keys[1..], k);
      assert onward(e) == EachThen(keys[1..], k);
      Onwards(Process(EachThen(keys, k), w), env, 1, Process(onward(e), w1), n, Process(k, DeleteEach(w, env, keys)));
      n := 1 + n;
    }
  }

  function OnListed(k: Program): Then<Option<seq<Key>>> {
    (keys: Option<seq<Key>>) => if keys.None? then k else EachThen(keys.value, k)
  }

  function SweepThen(kinds: seq<Kind>, k: Program): Program
    decreases |kinds|
  {
    if kinds == [] then k else ListThen(kinds[0], OnListed(SweepThen(kinds[1..], k)))
  }

  lemma KindLeads(w: World, env: Env, kind: Kind, k: Program) returns (n: nat)
    ensures Leads(Process(ListThen(kind, OnListed(k)), w), env, n, Process(k, SweepKind(w, env, kind)))
  {
    ListAlike(w, w, env, kind);
    ListKeepsClient(w, env, kind);
    hide List, ListThen, DeleteEach, EachThen, Leads, Alone;
    var onward := OnListed(k);
    n := 1;
    ListLeads(w, env, kind, onward);
    var (w1, keys) := List(w, env, kind);
    if keys.Some? {
      var more := EachLeads(w1, env, keys.value, k);
      Onwards(Process(ListThen(kind, onward), w), env, 1, Process(onward(keys), w1), more,
          Process(k, SweepKind(w, env, kind)));
      n := 1 + more;
    }
  }

  lemma {:induction false} SweepLeads(w: World, env: Env, kinds: seq<Kind>, k: Program) returns (n: nat)
    ensures Leads(Process(SweepThen(kinds, k), w), env, n, Process(k, Sweep(w, env, kinds)))
    decreases |kinds|
  {
    hide SweepKind, Leads, ListThen, OnListed;
    if kinds == [] {
      n := 0;
      Stay(Process(k, w), env);
    } else {
      var rest := SweepThen(kinds[1..], k);
      var w1 := SweepKind(w, env, kinds[0]);
      n := KindLeads(w, env, kinds[0], rest);
      var more := SweepLeads(w1, env, kinds[1..], k);
      Onwards(Process(SweepThen(kinds, k), w), env, n, Process(rest, w1), more, Process(k, Sweep(w, env, kinds)));
      n := n + more;
    }
  }

  function OnDropped(k: Then<Option<Err>>): Then<Option<Err>> {
    (e: Option<Err>) => if e.Some? && e.value != NotFound then k(e) else k(None)
  }

  function OnNamespace(me: string, k: Then<Option<Err>>): Then<Reply> {
    (g: Reply) =>
      if g.Found? && LabelValue(g.obj, ClientLabel) == me then DeleteThen(NamespaceDelete, TheNamespace, OnDropped(k))
      else k(None)
  }

  function DropThen(me: string, k: Then<Option<Err>>): Program
  {
    GetThen(NamespaceRead, TheNamespace, OnNamespace(me, k))
  }

  lemma DropLeads(w: World, env: Env, k: Then<Option<Err>>) returns (n: nat)
    ensures var (w', e) := DropNamespace(w, env);
            Leads(Process(DropThen(w.me, k), w), env, n, Process(k(e), w'))
  {
    hide Get, GetThen, Delete, DeleteThen, LabelValue, Leads;
    var onward := OnNamespace(w.me, k);
    n := 1;
    GetLeads(w, env, NamespaceRead, TheNamespace, onward);
    var (w1, g) := Get(w, env, NamespaceRead, K(w, TheNamespace));
    if g.Found? && LabelValue(g.obj, ClientLabel) == w.me {
      DeleteLeads(w1, env, NamespaceDelete, TheNamespace, OnDropped(k));
      var (w', e) := DropNamespace(w, env);
      Onwards(Process(DropThen(w.me, k), w), env, 1, Process(onward(g), w1), 1, Process(k(e), w'));
      n := 2;
    }
  }

  function OnSwept(cn: CR): Then<Option<Err>> {
    (e: Option<Err>) =>
      if e.Some? then Done else MetaThen(FinalizerRemove, cn.(finalizers := cn.finalizers - {FINALIZER}), OnLastCall())
  }

  function DeletePhaseThen(me: string, cn: CR): Program { SweepThen(SWEPT, DropThen(me, OnSwept(cn))) }

  lemma DeletePhaseLeads(w: World, env: Env, cn: CR) returns (n: nat)
    ensures Leads(Process(DeletePhaseThen(w.me, cn), w), env, n, Process(Done, DeletePhase(w, env, cn)))
  {
    hide Sweep, SweepThen, DropNamespace, DropThen, MetaUpdate, MetaThen, Leads;
    SweepKeepsClient(w, env);
    var w1 := Sweep(w, env, SWEPT);
    n := SweepLeads(w, env, SWEPT, DropThen(w.me, OnSwept(cn)));
    var more := DropLeads(w1, env, OnSwept(cn));
    var (w2, e) := DropNamespace(w1, env);
    var p := Process(DeletePhaseThen(w.me, cn), w);
    Onwards(p, env, n, Process(DropThen(w.me, OnSwept(cn)), w1), more, Process(OnSwept(cn)(e), w2));
    n := n + more;
    if e.None? {
      MetaLeads(w2, env, FinalizerRemove, cn.(finalizers := cn.finalizers - {FINALIZER}), OnLastCall());
      Onwards(p, env, n, Process(OnSwept(cn)(e), w2), 1, Process(Done, DeletePhase(w, env, cn)));
      n := n + 1;
    }
  }

  lemma SweepKeepsClient(w: World, env: Env)
    ensures Sweep(w, env, SWEPT).me == w.me
  {
    SweepAlike(w, w, env, SWEPT);
    SweepFacts(w, env, SWEPT);
    hide Sweep;
  }

  // ---- The whole run ------------------------------------------------------------------------------------------

  function OnFinalizer(cn: CR, own: Env): Then<Option<Err>> {
    (e: Option<Err>) => if e.Some? then Done else ProvisionThen(Refreshed(cn, e), own)
  }

  function OnFetched(me: string, own: Env): Then<Result<CR>> {
    (got: Result<CR>) =>
      if got.Fail? then Done
      else
        var cn := got.value;
        if cn.deleting then DeletePhaseThen(me, cn)
        else if FINALIZER in cn.finalizers then ProvisionThen(cn, own)
        else
          var cn1 := cn.(finalizers := cn.finalizers + {FINALIZER});
          MetaThen(FinalizerAdd, cn1, OnFinalizer(cn1, own))
  }

  /** The controller, run for one client. Besides the answers it has its random numbers and the order of its maps. */
  function Controller(me: string, draws: map<Purpose, seq<Draw>>, sqlOrder: seq<App>): Program {
    FetchThen(OnFetched(me, Inputs(draws, sqlOrder)))
  }

  lemma ManageLeads(w: World, env: Env, cn: CR) returns (n: nat)
    requires !cn.deleting && ReadCr(w, env).1 == Ok(cn)
    ensures Leads(Process(OnFetched(w.me, InputsOf(env))(Ok(cn)), ReadCr(w, env).0), env, n,
            Process(Done, Reconcile(w, env)))
  {
    hide ReadCr, ProvisionPhase, ProvisionThen, MetaUpdate, MetaThen, Leads;
    var w0 := ReadCr(w, env).0;
    if FINALIZER in cn.finalizers {
      n := ProvisionLeads(w0, cn, env);
    } else {
      var cn1 := cn.(finalizers := cn.finalizers + {FINALIZER});
      var onward := OnFinalizer(cn1, InputsOf(env));
      n := 1;
      MetaLeads(w0, env, FinalizerAdd, cn1, onward);
      var (w1, e) := MetaUpdate(w0, env, FinalizerAdd, cn1);
      if e.None? {
        var more := ProvisionLeads(w1, Refreshed(cn1, e), env);
        Onwards(Process(MetaThen(FinalizerAdd, cn1, onward), w0), env, 1, Process(onward(e), w1), more,
                Process(Done, Reconcile(w, env)));
        n := 1 + more;
      }
    }
  }

  /** Small steps and big steps agree: the program, left to make its calls one by one and to go on with the answers,
      ends in the world of the whole run, under any faults and any activity of others. */
  lemma ControllerIsReconcile(w: World, env: Env) returns (n: nat)
    ensures Leads(Process(Controller(w.me, env.draws, env.sqlOrder), w), env, n, Process(Done, ReconcileAny(w, env)))
  {
    hide DeletePhase, DeletePhaseThen, Reconcile, FetchThen, Leads, OnFetched;
    var onward := OnFetched(w.me, InputsOf(env));
    FetchLeads(w, env, onward);
    var (w0, got) := ReadCr(w, env);
    n := 0;
    var p := Process(Controller(w.me, env.draws, env.sqlOrder), w);
    if got.Fail? {
      Unfetched(w.me, env, got.error);
      n := 1;
    } else {
      var more: nat;
      if got.value.deleting {
        more := DeletePhaseLeads(w0, env, got.value);
        FetchedDeleting(w.me, env, got.value);
      } else {
        more := ManageLeads(w, env, got.value);
      }
      Onwards(p, env, 1, Process(onward(got), w0), more, Process(Done, ReconcileAny(w, env)));
      n := 1 + more;
    }
  }

  lemma Unfetched(me: string, env: Env, e: Err)
    ensures OnFetched(me, InputsOf(env))(Fail(e)) == Done
  {
  }

  lemma FetchedDeleting(me: string, env: Env, cn: CR)
    requires cn.deleting
    ensures OnFetched(me, InputsOf(env))(Ok(cn)) == DeletePhaseThen(me, cn)
  {
  }
}
