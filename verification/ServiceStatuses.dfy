/** The per-service status list: how services are named, and how entries are upserted. */
module ServiceStatuses {
  import opened Objects

  function Digit(d: nat): char
    requires d < 10
  {
    '0' + d as char
  }

  function Decimal(n: nat): (s: string)
    ensures s != ""
    ensures forall c | c in s :: '0' <= c <= '9'
  {
    if n < 10 then [Digit(n)] else Decimal(n / 10) + [Digit(n % 10)]
  }

  function ServiceName(index: nat): string {
    match index
    case 0 => "Namespace"
    case 1 => "PostgreSQL"
    case 2 => "Redis"
    case 3 => "RustFS"
    case 4 => "Ninegate"
    case 5 => "Glauth"
    case 6 => "Dex"
    case 7 => "Nextcloud"
    case 8 => "WordPress"
    case 9 => "Dolibarr"
    case _ => "service-" + Decimal(index)
  }

  lemma {:induction false} DecimalInjective(a: nat, b: nat)
    requires Decimal(a) == Decimal(b)
    ensures a == b
  {
    var s := Decimal(a);
    assert s[|s| - 1] == Digit(a % 10) == Digit(b % 10);
    if a >= 10 && b >= 10 {
      assert Decimal(a / 10) == s[..|s| - 1] == Decimal(b / 10);
      DecimalInjective(a / 10, b / 10);
    }
  }

  /** Length, first and second letter tell the ten fixed names apart. */
  lemma FixedNames(i: nat)
    requires i < 10
    ensures var s := ServiceName(i);
            |s| >= 3 && s[0] != 's' && (|s|, s[1]) ==
            match i
              case 0 => (9, 'a') case 1 => (10, 'o') case 2 => (5, 'e') case 3 => (6, 'u') case 4 => (8, 'i')
              case 5 => (6, 'l') case 6 => (3, 'e') case 7 => (9, 'e') case 8 => (9, 'o') case _ => (8, 'o')
  {
  }

  /** No two services share a status name, however many there are. */
  lemma ServiceNameInjective(i: nat, j: nat)
    requires ServiceName(i) == ServiceName(j)
    ensures i == j
  {
    if i < 10 { FixedNames(i); }
    if j < 10 { FixedNames(j); }
    if i >= 10 && j >= 10 {
      assert Decimal(i) == ServiceName(i)[8..];
      assert Decimal(j) == ServiceName(j)[8..];
      DecimalInjective(i, j);
    }
  }

  // ---- The list -----------------------------------------------------------

  function IndexOf(list: seq<ServiceStatus>, name: string): (i: nat)
    ensures i <= |list|
    ensures i < |list| ==> list[i].name == name
    ensures forall j | 0 <= j < i :: list[j].name != name
  {
    if list == [] || list[0].name == name then 0 else IndexOf(list[1..], name) + 1
  }

  /** Overwrite the first entry with this name, or append one. */
  function Upsert(list: seq<ServiceStatus>, name: string, ready: bool, message: Option<Err>): seq<ServiceStatus> {
    var i := IndexOf(list, name);
    var entry := ServiceStatus(name, ready, message);
    if i < |list| then list[i := entry] else list + [entry]
  }

  predicate UniqueNames(list: seq<ServiceStatus>) {
    forall i, j | 0 <= i < j < |list| :: list[i].name != list[j].name
  }

  /** What the list says about a service: its readiness and message, if it has an entry. */
  function Lookup(list: seq<ServiceStatus>, name: string): Option<(bool, Option<Err>)> {
    var i := IndexOf(list, name);
    if i < |list| then Some((list[i].ready, list[i].message)) else None
  }

  /** An upsert is a map update: the named entry changes, every other lookup is unchanged, names stay unique. */
  lemma UpsertIsMapUpdate(list: seq<ServiceStatus>, name: string, ready: bool, message: Option<Err>, other: string)
    ensures Lookup(Upsert(list, name, ready, message), other) ==
            if other == name then Some((ready, message)) else Lookup(list, other)
    ensures UniqueNames(list) ==> UniqueNames(Upsert(list, name, ready, message))
  {
    var out := Upsert(list, name, ready, message);
    var i, i' := IndexOf(list, other), IndexOf(out, other);
    if other != name {
      assert forall j | 0 <= j < |list| :: list[j].name == out[j].name;
      if i < |list| {
        assert out[i].name == other;
      }
      assert i' < |list| ==> list[i'].name == other;
      assert out[|out| - 1].name == other ==> |out| == |list|;
    } else {
      var n := IndexOf(list, name);
      assert out[n] == ServiceStatus(name, ready, message);
      assert i' <= n;
      assert forall j | 0 <= j < n :: out[j].name == list[j].name && list[j].name != name;
    }
  }

  /** The list after the first `n` services have been reconciled. */
  function AllReady(list: seq<ServiceStatus>, n: nat): seq<ServiceStatus> {
    if n == 0 then list else Upsert(AllReady(list, n - 1), ServiceName(n - 1), true, None)
  }

  /** `name` is the status name of one of the first `n` services. */
  predicate NamedBelow(name: string, n: nat) {
    n > 0 && (name == ServiceName(n - 1) || NamedBelow(name, n - 1))
  }

  lemma {:induction false} NamedBelowMeans(i: nat, n: nat)
    ensures NamedBelow(ServiceName(i), n) <==> i < n
  {
    if n > 0 {
      NamedBelowMeans(i, n - 1);
      if i != n - 1 && ServiceName(i) == ServiceName(n - 1) {
        ServiceNameInjective(i, n - 1);
      }
    }
  }

  /** After the loop over any number of services, each is ready and without a message,
      entries of other names are untouched, and no name appears twice. */
  lemma {:induction false} AllReadyRefines(list: seq<ServiceStatus>, n: nat, name: string)
    ensures Lookup(AllReady(list, n), name) == if NamedBelow(name, n) then Some((true, None)) else Lookup(list, name)
    ensures UniqueNames(list) ==> UniqueNames(AllReady(list, n))
  {
    hide ServiceName, Upsert, Lookup, UniqueNames;
    if n > 0 {
      var before := AllReady(list, n - 1);
      assert AllReady(list, n) == Upsert(before, ServiceName(n - 1), true, None);
      hide AllReady;
      AllReadyRefines(list, n - 1, name);
      UpsertIsMapUpdate(before, ServiceName(n - 1), true, None, name);
    }
  }

  /** A failure at service `i` leaves the earlier services ready, marks `i` with the error, and keeps the rest. */
  lemma FailureAt(list: seq<ServiceStatus>, i: nat, error: Err, name: string)
    ensures var out := Upsert(AllReady(list, i), ServiceName(i), false, Some(error));
            Lookup(out, name) ==
              if NamedBelow(name, i) then Some((true, None))
              else if name == ServiceName(i) then Some((false, Some(error)))
              else Lookup(list, name)
  {
    UpsertIsMapUpdate(AllReady(list, i), ServiceName(i), false, Some(error), name);
    AllReadyRefines(list, i, name);
    NamedBelowMeans(i, i);
  }
}
