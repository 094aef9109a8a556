/** The mapping from a DNS domain to an LDAP distinguished name (section 3 of RFC 2247). */
module DomainDn {
  import opened Objects

  /** The loop's accumulator: every dot becomes `,dc=`. */
  function ReplaceDots(domain: string): string {
    if domain == "" then ""
    else (if domain[0] == '.' then ",dc=" else [domain[0]]) + ReplaceDots(domain[1..])
  }

  function DnOf(domain: string): string { "dc=" + ReplaceDots(domain) }

  lemma {:induction false} ReplaceDotsAppend(s: string, c: char)
    ensures ReplaceDots(s + [c]) == ReplaceDots(s) + (if c == '.' then ",dc=" else [c])
  {
    if s == "" {
      assert s + [c] == [c];
      assert [c][1..] == "";
    } else {
      assert (s + [c])[1..] == s[1..] + [c];
      ReplaceDotsAppend(s[1..], c);
    }
  }

  method ReplaceDotsWithDC(domain: string) returns (dn: string)
    ensures dn == DnOf(domain)
    ensures dn == JoinDc(SplitDots(domain))
  {
    var result := "";
    var i := 0;
    while i < |domain|
      invariant 0 <= i <= |domain|
      invariant result == ReplaceDots(domain[..i])
    {
      var c := domain[i];
      ReplaceDotsAppend(domain[..i], c);
      assert domain[..i + 1] == domain[..i] + [c];
      if c == '.' {
        result := result + ",dc=";
      } else {
        result := result + [c];
      }
      i := i + 1;
    }
    assert domain[..|domain|] == domain;
    DnIsJoinedLabels(domain);
    return "dc=" + result;
  }

  // ---- The declarative reading --------------------------------------------

  /** The labels of a domain: the maximal dot-free pieces, in order. */
  function SplitDots(s: string): (labels: seq<string>)
    ensures labels != []
  {
    if s == "" then [""]
    else
      var rest := SplitDots(s[1..]);
      if s[0] == '.' then [""] + rest else [[s[0]] + rest[0]] + rest[1..]
  }

  /** `dc=` before each label, commas between. */
  function JoinDc(labels: seq<string>): string
    requires labels != []
    decreases |labels|, 1
  {
    "dc=" + JoinRest(labels)
  }

  /** The joined text after its first `dc=`. */
  function JoinRest(labels: seq<string>): string
    requires labels != []
    decreases |labels|, 0
  {
    if |labels| == 1 then labels[0] else labels[0] + ("," + JoinDc(labels[1..]))
  }

  lemma Assoc(a: string, b: string, c: string)
    ensures a + (b + c) == a + b + c
  {
  }

  /** Prefixing a character to the first label prefixes it to the joined text. */
  lemma JoinCons(c: char, labels: seq<string>)
    requires labels != []
    ensures JoinRest([[c] + labels[0]] + labels[1..]) == [c] + JoinRest(labels)
  {
    var longer := [[c] + labels[0]] + labels[1..];
    assert longer[1..] == labels[1..];
    if |labels| > 1 {
      Assoc([c], labels[0], "," + JoinDc(labels[1..]));
    }
  }

  lemma {:induction false} ReplaceDotsJoins(domain: string)
    ensures ReplaceDots(domain) == JoinRest(SplitDots(domain))
  {
    if domain != "" {
      var rest := SplitDots(domain[1..]);
      ReplaceDotsJoins(domain[1..]);
      if domain[0] == '.' {
        var labels := [""] + rest;
        assert labels[1..] == rest;
        Assoc(",", "dc=", JoinRest(rest));
        assert "," + "dc=" == ",dc=";
        assert "" + ("," + JoinDc(rest)) == "," + JoinDc(rest);
      } else {
        JoinCons(domain[0], rest);
      }
    }
  }

  /** The accumulating loop is: split on dots, prefix each label, join with commas. */
  lemma DnIsJoinedLabels(domain: string)
    ensures DnOf(domain) == JoinDc(SplitDots(domain))
  {
    ReplaceDotsJoins(domain);
  }

  function Dots(s: string): nat {
    if s == "" then 0 else (if s[0] == '.' then 1 else 0) + Dots(s[1..])
  }

  lemma {:induction false} DnLength(domain: string)
    ensures |DnOf(domain)| == |domain| + 3 * (Dots(domain) + 1)
  {
    if domain != "" {
      DnLength(domain[1..]);
    }
  }

  // ---- The inverse ----------------------------------------------------------

  /** Reads the components back, turning `,dc=` into a dot. */
  function ReadComponents(s: string): string {
    if s == "" then ""
    else if ",dc=" <= s then "." + ReadComponents(s[4..])
    else [s[0]] + ReadComponents(s[1..])
  }

  function ReadDn(dn: string): Option<string> {
    if "dc=" <= dn then Some(ReadComponents(dn[3..])) else None
  }

  /** The text `,dc=` occurs in s. */
  predicate HasDc(s: string) {
    s != "" && (",dc=" <= s || HasDc(s[1..]))
  }

  predicate StartsWithDc(s: string) {
    |s| >= 4 && s[0] == ',' && s[1] == 'd' && s[2] == 'c' && s[3] == '='
  }

  lemma HeadKept(s: string)
    requires s != ""
    ensures s[0] != '.' ==> ReplaceDots(s) == [s[0]] + ReplaceDots(s[1..])
    ensures s[0] == '.' ==> ReplaceDots(s) == ",dc=" + ReplaceDots(s[1..])
  {
  }

  /** Replacing dots neither makes nor destroys a leading `,dc=`, unless the text starts with a dot. */
  lemma LeadingDcKept(s: string)
    requires s != "" && s[0] != '.'
    ensures StartsWithDc(ReplaceDots(s)) <==> StartsWithDc(s)
    ensures StartsWithDc(s) ==> ReplaceDots(s)[4..] == ReplaceDots(s[4..])
  {
    assert ReplaceDots("") == "";
    hide ReplaceDots;
    assert forall i | 0 <= i < 4 && |s| == i :: s[i..] == "";
    HeadKept(s);
    if |s| >= 2 { HeadKept(s[1..]); assert s[1..][1..] == s[2..]; }
    if |s| >= 3 { HeadKept(s[2..]); assert s[2..][1..] == s[3..]; }
    if |s| >= 4 { HeadKept(s[3..]); assert s[3..][1..] == s[4..]; }
  }

  lemma {:induction false} ReadShortens(s: string)
    ensures |ReadComponents(ReplaceDots(s))| <= |s|
    ensures ReadComponents(ReplaceDots(s)) == s <==> !HasDc(s)
    decreases |s|
  {
    if s != "" {
      var r := ReplaceDots(s);
      assert ",dc=" <= s <==> StartsWithDc(s);
      assert ",dc=" <= r <==> StartsWithDc(r);
      ReadShortens(s[1..]);
      if s[0] == '.' {
        assert r[4..] == ReplaceDots(s[1..]);
        assert s == "." + s[1..];
      } else {
        LeadingDcKept(s);
        if StartsWithDc(s) {
          ReadShortens(s[4..]);
        } else {
          assert r[1..] == ReplaceDots(s[1..]);
          assert s == [s[0]] + s[1..];
        }
      }
    }
  }

  /** The DN determines the domain exactly when the domain does not itself contain `,dc=`. */
  lemma DnRoundTrip(domain: string)
    ensures ReadDn(DnOf(domain)) == Some(domain) <==> !HasDc(domain)
  {
    assert DnOf(domain)[3..] == ReplaceDots(domain);
    ReadShortens(domain);
  }

  lemma {:induction false} CommaFree(s: string)
    requires ',' !in s
    ensures !HasDc(s)
  {
    if s != "" {
      CommaFree(s[1..]);
      assert ",dc=" <= s ==> StartsWithDc(s);
    }
  }

  /** Different comma-free domains (every DNS name) get different DNs. */
  lemma DnInjective(a: string, b: string)
    requires ',' !in a && ',' !in b && DnOf(a) == DnOf(b)
    ensures a == b
  {
    CommaFree(a);
    CommaFree(b);
    DnRoundTrip(a);
    DnRoundTrip(b);
  }

  lemma {:induction false} ReplaceDotsConcat(s: string, t: string)
    ensures ReplaceDots(s + t) == ReplaceDots(s) + ReplaceDots(t)
  {
    if s == "" {
      assert s + t == t;
    } else {
      assert (s + t)[1..] == s[1..] + t;
      ReplaceDotsConcat(s[1..], t);
    }
  }

  /** A domain that spells out `,dc=` collides with the one that has a dot there. */
  lemma DnCollision(a: string, b: string)
    ensures DnOf(a + ",dc=" + b) == DnOf(a + "." + b)
    ensures a + ",dc=" + b != a + "." + b
  {
    var dc, dot := ",dc=", ".";
    SameReplacement(dc, dot);
    ReplaceDotsConcat(a + dc, b);
    ReplaceDotsConcat(a, dc);
    ReplaceDotsConcat(a + dot, b);
    ReplaceDotsConcat(a, dot);
    assert |a + dc + b| != |a + dot + b|;
  }

  lemma SameReplacement(dc: string, dot: string)
    requires dc == ",dc=" && dot == "."
    ensures ReplaceDots(dc) == ReplaceDots(dot)
  {
    NoDots(dc);
    assert dot[1..] == "";
  }

  lemma {:induction false} NoDots(s: string)
    requires '.' !in s
    ensures ReplaceDots(s) == s
  {
    if s != "" {
      NoDots(s[1..]);
    }
  }
}
