/** The PostgreSQL init script: one CREATE DATABASE per needed database, in map iteration order. */
module InitScript {
  import opened Objects

  const HEAD := "CREATE DATABASE "
  const CORE := "ninegate"

  function Statement(db: string): string { HEAD + db + ";\n" }

  function Script(dbs: seq<string>): string {
    if dbs == [] then "" else Statement(dbs[0]) + Script(dbs[1..])
  }

  /** Whether a service contributes a database: enabled, in the catalog, with a database name. */
  predicate Needs<S(==)>(s: S, enabled: map<S, bool>, catalog: map<S, string>) {
    s in enabled && enabled[s] && s in catalog && catalog[s] != ""
  }

  /** The databases of the needed services, in the given order. */
  function Wanted<S(==)>(order: seq<S>, enabled: map<S, bool>, catalog: map<S, string>): seq<string> {
    if order == [] then []
    else
      (if Needs(order[0], enabled, catalog) then [catalog[order[0]]] else [])
      + Wanted(order[1..], enabled, catalog)
  }

  /** An order in which a map with these keys may be iterated: every key exactly once. */
  predicate Iterates<S(==)>(order: seq<S>, keys: set<S>) {
    && (forall s | s in order :: s in keys)
    && (forall s | s in keys :: s in order)
    && (forall i, j | 0 <= i < j < |order| :: order[i] != order[j])
  }

  function InitSqlFor<S(==)>(order: seq<S>, enabled: map<S, bool>, catalog: map<S, string>): string {
    Script([CORE] + Wanted(order, enabled, catalog))
  }

  lemma {:induction false} ScriptAppend(a: seq<string>, b: seq<string>)
    ensures Script(a + b) == Script(a) + Script(b)
  {
    if a == [] {
      assert a + b == b;
    } else {
      assert (a + b)[1..] == a[1..] + b;
      ScriptAppend(a[1..], b);
    }
  }

  lemma {:induction false} WantedAppend<S>(a: seq<S>, b: seq<S>, enabled: map<S, bool>, catalog: map<S, string>)
    ensures Wanted(a + b, enabled, catalog) == Wanted(a, enabled, catalog) + Wanted(b, enabled, catalog)
  {
    if a == [] {
      assert a + b == b;
    } else {
      assert (a + b)[1..] == a[1..] + b;
      WantedAppend(a[1..], b, enabled, catalog);
    }
  }

  method GenerateInitSQL<S(==)>(order: seq<S>, enabled: map<S, bool>, catalog: map<S, string>) returns (sql: string)
    requires Iterates(order, enabled.Keys)
    ensures sql == InitSqlFor(order, enabled, catalog)
    ensures ParseScript(sql) == Some([CORE] + Wanted(order, enabled, catalog)) <==>
              forall s | Needs(s, enabled, catalog) :: ';' !in catalog[s]
  {
    sql := "";
    sql := sql + Statement(CORE);
    assert Script([CORE]) == Statement(CORE) + Script([]);
    for i := 0 to |order|
      invariant sql == Script([CORE] + Wanted(order[..i], enabled, catalog))
    {
      var name := order[i];
      var dbs := [CORE] + Wanted(order[..i], enabled, catalog);
      WantedAppend(order[..i], [name], enabled, catalog);
      assert order[..i + 1] == order[..i] + [name];
      if !enabled[name] {
        assert [CORE] + Wanted(order[..i + 1], enabled, catalog) == dbs;
        continue;
      }
      if name !in catalog || catalog[name] == "" {
        assert [CORE] + Wanted(order[..i + 1], enabled, catalog) == dbs;
        continue;
      }
      ScriptAppend(dbs, [catalog[name]]);
      assert [CORE] + Wanted(order[..i + 1], enabled, catalog) == dbs + [catalog[name]];
      assert Script([catalog[name]]) == Statement(catalog[name]) + "";
      sql := sql + Statement(catalog[name]);
    }
    assert order[..|order|] == order;
    ScriptParses(order, enabled, catalog);
  }

  // ---- Reading the script back ---------------------------------------------

  function FindSemicolon(s: string): (i: nat)
    ensures i <= |s|
    ensures forall j | 0 <= j < i :: s[j] != ';'
    ensures i < |s| ==> s[i] == ';'
  {
    if s == "" || s[0] == ';' then 0 else FindSemicolon(s[1..]) + 1
  }

  /** The databases a script creates, in order; `None` if it is anything else than such statements. */
  function ParseScript(sql: string): Option<seq<string>>
    decreases |sql|
  {
    if sql == "" then Some([])
    else if !(HEAD <= sql) then None
    else
      var body := sql[|HEAD|..];
      var i := FindSemicolon(body);
      if i + 1 >= |body| || body[i + 1] != '\n' then None
      else match ParseScript(body[i + 2..])
        case None => None
        case Some(rest) => Some([body[..i]] + rest)
  }

  lemma StatementBody(db: string, tail: string)
    ensures var sql := Statement(db) + tail; HEAD <= sql && sql[|HEAD|..] == db + ";\n" + tail
  {
  }

  lemma ParseStatement(db: string, tail: string)
    requires ';' !in db
    requires ParseScript(tail).Some?
    ensures ParseScript(Statement(db) + tail) == Some([db] + ParseScript(tail).value)
  {
    var sql := Statement(db) + tail;
    var body := sql[|HEAD|..];
    StatementBody(db, tail);
    hide HEAD, Statement;
    var i := FindSemicolon(body);
    assert body[|db|] == ';';
    assert forall j | 0 <= j < |db| :: body[j] == db[j] && db[j] in db;
    assert i == |db|;
    assert body[i + 1] == '\n';
    assert body[i + 2..] == tail;
    assert body[..i] == db;
  }

  lemma {:induction false} ParseScriptOf(dbs: seq<string>)
    requires forall d | d in dbs :: ';' !in d
    ensures ParseScript(Script(dbs)) == Some(dbs)
  {
    if dbs != [] {
      assert forall d | d in dbs[1..] :: d in dbs;
      ParseScriptOf(dbs[1..]);
      ParseStatement(dbs[0], Script(dbs[1..]));
      assert dbs == [dbs[0]] + dbs[1..];
    }
  }

  lemma {:induction false} WantedMembers<S>(order: seq<S>, enabled: map<S, bool>, catalog: map<S, string>, d: string)
    ensures d in Wanted(order, enabled, catalog) <==>
            exists s :: s in order && Needs(s, enabled, catalog) && catalog[s] == d
  {
    if order != [] {
      WantedMembers(order[1..], enabled, catalog, d);
      if Needs(order[0], enabled, catalog) && catalog[order[0]] == d {
        assert order[0] in order;
      }
      assert forall s :: s in order <==> s == order[0] || s in order[1..];
    }
  }

  /** No parsed name contains a semicolon. */
  lemma {:induction false} ParsedNames(sql: string)
    requires ParseScript(sql).Some?
    ensures forall d | d in ParseScript(sql).value :: ';' !in d
    decreases |sql|
  {
    if sql != "" {
      var body := sql[|HEAD|..];
      var i := FindSemicolon(body);
      ParsedNames(body[i + 2..]);
    }
  }

  /** The script reads back as the databases it was made of exactly when no needed name contains a semicolon. */
  lemma ScriptParses<S>(order: seq<S>, enabled: map<S, bool>, catalog: map<S, string>)
    requires Iterates(order, enabled.Keys)
    ensures ParseScript(InitSqlFor(order, enabled, catalog)) == Some([CORE] + Wanted(order, enabled, catalog)) <==>
            forall s | Needs(s, enabled, catalog) :: ';' !in catalog[s]
  {
    var dbs := [CORE] + Wanted(order, enabled, catalog);
    var sql := InitSqlFor(order, enabled, catalog);
    if forall s | Needs(s, enabled, catalog) :: ';' !in catalog[s] {
      forall d | d in dbs ensures ';' !in d {
        if d != CORE {
          WantedMembers(order, enabled, catalog, d);
        }
      }
      ParseScriptOf(dbs);
    }
    if ParseScript(sql) == Some(dbs) {
      ParsedNames(sql);
      forall s | Needs(s, enabled, catalog) ensures ';' !in catalog[s] {
        WantedMembers(order, enabled, catalog, catalog[s]);
        assert catalog[s] in dbs;
      }
    }
  }

  predicate Distinct<T(==)>(xs: seq<T>) {
    forall i, j | 0 <= i < j < |xs| :: xs[i] != xs[j]
  }

  lemma {:induction false} WantedDistinct<S>(order: seq<S>, enabled: map<S, bool>, catalog: map<S, string>)
    requires Distinct(order)
    requires forall s, t | Needs(s, enabled, catalog) && Needs(t, enabled, catalog) && catalog[s] == catalog[t] ::
             s == t
    ensures Distinct(Wanted(order, enabled, catalog))
  {
    if order != [] {
      WantedDistinct(order[1..], enabled, catalog);
      if Needs(order[0], enabled, catalog) {
        var d := catalog[order[0]];
        WantedMembers(order[1..], enabled, catalog, d);
        assert d !in Wanted(order[1..], enabled, catalog);
      }
    }
  }

  lemma {:induction false} DistinctNames<S>(order: seq<S>, enabled: map<S, bool>, catalog: map<S, string>, s: S, t: S)
    requires Distinct(Wanted(order, enabled, catalog)) && s in order && t in order && s != t
    requires Needs(s, enabled, catalog) && Needs(t, enabled, catalog)
    ensures catalog[s] != catalog[t]
  {
    var first, rest := order[0], order[1..];
    var wanted := Wanted(rest, enabled, catalog);
    var head := if Needs(first, enabled, catalog) then [catalog[first]] else [];
    assert Wanted(order, enabled, catalog) == head + wanted && (head + wanted)[|head|..] == wanted;
    if s in rest && t in rest {
      DistinctNames(rest, enabled, catalog, s, t);
    } else {
      var other := if s in rest then s else t;
      assert other in rest && first in {s, t} && first != other;
      WantedMembers(rest, enabled, catalog, catalog[other]);
      var j :| 0 <= j < |wanted| && wanted[j] == catalog[other];
      assert (head + wanted)[0] == catalog[first] && (head + wanted)[j + 1] == catalog[other];
    }
  }

  /** The needed databases have names of their own, different from `ninegate`, that end no statement. */
  ghost predicate ProperNames<S(!new)>(enabled: map<S, bool>, catalog: map<S, string>) {
    && (forall s | Needs(s, enabled, catalog) :: ';' !in catalog[s] && catalog[s] != CORE)
    && (forall s, t | Needs(s, enabled, catalog) && Needs(t, enabled, catalog) && catalog[s] == catalog[t] :: s == t)
  }

  /** The script creates `ninegate` first and then exactly the databases of the needed services, each once: nothing
      missing, nothing else, nothing twice. */
  ghost predicate CreatesWhatIsNeeded<S(!new)>(sql: string, enabled: map<S, bool>, catalog: map<S, string>) {
    var dbs := ParseScript(sql);
    && dbs.Some? && dbs.value != [] && dbs.value[0] == CORE && Distinct(dbs.value)
    && forall d :: d in dbs.value[1..] <==> exists s :: Needs(s, enabled, catalog) && catalog[s] == d
  }

  /** Whatever the iteration order, the script creates what is needed, exactly when the needed names are proper. */
  lemma ScriptIsOrderIndependent<S(!new)>(order: seq<S>, enabled: map<S, bool>, catalog: map<S, string>)
    requires Iterates(order, enabled.Keys)
    ensures CreatesWhatIsNeeded(InitSqlFor(order, enabled, catalog), enabled, catalog) <==>
            ProperNames(enabled, catalog)
  {
    var wanted := Wanted(order, enabled, catalog);
    var dbs := [CORE] + wanted;
    var sql := InitSqlFor(order, enabled, catalog);
    assert dbs[1..] == wanted;
    ScriptParses(order, enabled, catalog);
    forall d
      ensures d in wanted <==> exists s :: Needs(s, enabled, catalog) && catalog[s] == d
    {
      WantedMembers(order, enabled, catalog, d);
    }
    if ProperNames(enabled, catalog) {
      WantedDistinct(order, enabled, catalog);
      assert CORE !in wanted;
    }
    if CreatesWhatIsNeeded(sql, enabled, catalog) {
      NeededAreProper(order, enabled, catalog);
    }
  }

  lemma NeededAreProper<S(!new)>(order: seq<S>, enabled: map<S, bool>, catalog: map<S, string>)
    requires Iterates(order, enabled.Keys)
    requires CreatesWhatIsNeeded(InitSqlFor(order, enabled, catalog), enabled, catalog)
    ensures ProperNames(enabled, catalog)
  {
    var sql, wanted := InitSqlFor(order, enabled, catalog), Wanted(order, enabled, catalog);
    var parsed := ParseScript(sql).value;
    ParsedNames(sql);
    forall s | Needs(s, enabled, catalog) ensures ';' !in catalog[s] {
      assert catalog[s] in parsed[1..];
    }
    ScriptParses(order, enabled, catalog);
    assert parsed == [CORE] + wanted && parsed[1..] == wanted;
    forall s | Needs(s, enabled, catalog) ensures catalog[s] != CORE {
      assert catalog[s] in parsed[1..];
    }
    assert Distinct(wanted);
    forall s, t | Needs(s, enabled, catalog) && Needs(t, enabled, catalog) && catalog[s] == catalog[t] ensures s == t {
      if s != t {
        DistinctNames(order, enabled, catalog, s, t);
      }
    }
  }
}
