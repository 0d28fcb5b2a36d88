/** SQL templates: tenant expansion, the scanner of named parameters, and the laws that relate them. */
module Templates {

  const TENANT := "{tenant}"

  predicate IsAlpha(c: char) { 'a' <= c <= 'z' || 'A' <= c <= 'Z' || c == '_' }

  predicate IsAlphaNum(c: char) { IsAlpha(c) || '0' <= c <= '9' }

  predicate AllAlphaNum(s: string) { forall c :: c in s ==> IsAlphaNum(c) }

  predicate StartsWith(s: string, p: string) { |p| <= |s| && s[..|p|] == p }

  /** `strings.ReplaceAll(s, "{tenant}", tenant)` */
  function Replace(s: string, tenant: string): string {
    if s == [] then []
    else if StartsWith(s, TENANT) then tenant + Replace(s[|TENANT|..], tenant)
    else [s[0]] + Replace(s[1..], tenant)
  }

  // -------------------------------------------------------------- scanning

  /** A template consists of plain characters and references to parameters. */
  datatype Piece = Text(c: char) | Name(name: string)

  /** The length of the longest prefix that can be (the rest of) a name. */
  function Run(s: string): (n: nat)
    ensures n <= |s| && AllAlphaNum(s[..n]) && (n < |s| ==> !IsAlphaNum(s[n]))
  {
    if s == [] || !IsAlphaNum(s[0]) then 0 else
      assert s[..1 + Run(s[1..])] == [s[0]] + s[1..][..Run(s[1..])];
      1 + Run(s[1..])
  }

  predicate AtName(s: string) { |s| > 1 && s[0] == ':' && IsAlpha(s[1]) }

  function Scan(s: string): seq<Piece>
    decreases |s|
  {
    if s == [] then []
    else if AtName(s) then [Name(s[1..1 + Run(s[1..])])] + Scan(s[1 + Run(s[1..])..])
    else [Text(s[0])] + Scan(s[1..])
  }

  /** The template that pieces come from: every name put back at its place. */
  function Unscan(ps: seq<Piece>): string {
    if ps == [] then []
    else (if ps[0].Text? then [ps[0].c] else ":" + ps[0].name) + Unscan(ps[1..])
  }

  /** The query text: a question mark at the place of each name. */
  function Render(ps: seq<Piece>): string {
    if ps == [] then []
    else (if ps[0].Text? then [ps[0].c] else "?") + Render(ps[1..])
  }

  function Names(ps: seq<Piece>): seq<string> {
    if ps == [] then []
    else (if ps[0].Text? then [] else [ps[0].name]) + Names(ps[1..])
  }

  /** Scanning loses nothing: with the names put back, the scanned template returns. */
  lemma {:induction false} ScanInverts(s: string)
    ensures Unscan(Scan(s)) == s
    decreases |s|
  {
    if s != [] {
      var n := if AtName(s) then 1 + Run(s[1..]) else 1;
      ScanInverts(s[n..]);
      assert s == s[..n] + s[n..];
      assert AtName(s) ==> s[..n] == ":" + s[1..n];
    }
  }

  // -------------------------------------------------------------- well-formed pieces

  predicate IsName(n: string) { n != [] && IsAlpha(n[0]) && AllAlphaNum(n) }

  /** No two neighbouring pieces would have been read as one. */
  predicate Separate(ps: seq<Piece>) {
    |ps| > 1 && ps[1].Text? ==> if ps[0].Name? then !IsAlphaNum(ps[1].c) else ps[0].c != ':' || !IsAlpha(ps[1].c)
  }

  predicate WellFormed(ps: seq<Piece>) {
    ps == [] || ((ps[0].Name? ==> IsName(ps[0].name)) && Separate(ps) && WellFormed(ps[1..]))
  }

  lemma ScanHead(s: string)
    ensures Scan(s) == [] <==> s == []
    ensures s != [] && Scan(s)[0].Text? ==> Scan(s)[0].c == s[0]
    ensures s != [] && Scan(s)[0].Name? ==> s[0] == ':'
  {
  }

  lemma {:induction false} ScanWellFormed(s: string)
    ensures WellFormed(Scan(s))
    decreases |s|
  {
    if s != [] {
      var n := if AtName(s) then 1 + Run(s[1..]) else 1;
      ScanWellFormed(s[n..]);
      ScanHead(s[n..]);
      assert Scan(s)[1..] == Scan(s[n..]);
      if AtName(s) {
        assert s[1..n] == s[1..][..n - 1];
      }
    }
  }

  lemma RunOf(n: string, rest: string)
    requires AllAlphaNum(n) && (rest == [] || !IsAlphaNum(rest[0]))
    ensures Run(n + rest) == |n|
  {
    if n == [] {
      assert n + rest == rest;
    } else {
      assert (n + rest)[1..] == n[1..] + rest;
      RunOf(n[1..], rest);
    }
  }

  lemma UnscanHead(ps: seq<Piece>)
    requires ps != []
    ensures Unscan(ps) != [] && Unscan(ps)[0] == if ps[0].Text? then ps[0].c else ':'
  {
  }

  lemma ScanName(n: string, rest: string)
    requires IsName(n) && (rest == [] || !IsAlphaNum(rest[0]))
    ensures Scan(":" + n + rest) == [Name(n)] + Scan(rest)
  {
    hide Run, Scan;
    var s := ":" + n + rest;
    RunOf(n, rest);
    assert s[1..] == n + rest && s[1] == n[0] && |s| > 1;
    assert s[1..1 + |n|] == n && s[1 + |n|..] == rest;
    ScanAtName(s);
  }

  lemma ScanAtName(s: string)
    requires AtName(s)
    ensures Scan(s) == [Name(s[1..1 + Run(s[1..])])] + Scan(s[1 + Run(s[1..])..])
  {
  }

  lemma ScanText(c: char, rest: string)
    requires c != ':' || rest == [] || !IsAlpha(rest[0])
    ensures Scan([c] + rest) == [Text(c)] + Scan(rest)
  {
    assert ([c] + rest)[1..] == rest;
  }

  /** The scanner is a bijection between templates and well-formed lists of pieces. */
  lemma {:induction false} UnscanInverts(ps: seq<Piece>)
    requires WellFormed(ps)
    ensures Scan(Unscan(ps)) == ps
  {
    hide Scan;
    if ps == [] {
      ScanHead([]);
    } else {
      var rest := Unscan(ps[1..]);
      UnscanInverts(ps[1..]);
      if ps[1..] != [] { UnscanHead(ps[1..]); }
      if ps[0].Name? {
        ScanName(ps[0].name, rest);
      } else {
        ScanText(ps[0].c, rest);
      }
      assert ps == [ps[0]] + ps[1..];
    }
  }

  /** A second scan finds nothing: the rendered query contains no reference. */
  lemma {:induction false} RenderedIsPlain(ps: seq<Piece>)
    requires WellFormed(ps)
    ensures Names(Scan(Render(ps))) == [] && Render(Scan(Render(ps))) == Render(ps)
  {
    if ps != [] {
      RenderedIsPlain(ps[1..]);
      var r, rest := Render(ps), Render(ps[1..]);
      assert r == [r[0]] + rest;
      assert r[1..] == rest;
      if ps[1..] != [] {
        assert rest[0] == if ps[1].Text? then ps[1].c else '?';
      }
    }
  }

  // -------------------------------------------------------------- values

  datatype Outcome<V> = Expanded(query: string, args: seq<V>) | Missing(name: string)

  function Values<V>(names: seq<string>, params: map<string, V>): seq<V>
    requires forall n :: n in names ==> n in params
  {
    seq(|names|, i requires 0 <= i < |names| => params[names[i]])
  }

  /** The first name without a value. */
  function FirstMissing<V>(names: seq<string>, params: map<string, V>): string
    requires exists n :: n in names && n !in params
  {
    if names[0] !in params then names[0] else FirstMissing(names[1..], params)
  }

  /** The outcome for a template: all values in the order of the names, or the first name that has none. */
  function Expansion<V>(s: string, params: map<string, V>): Outcome<V> {
    var names := Names(Scan(s));
    if forall n :: n in names ==> n in params then Expanded(Render(Scan(s)), Values(names, params))
    else Missing(FirstMissing(names, params))
  }

  // -------------------------------------------------------------- tenants

  /** No `{tenant}` stands right behind a colon or a character of a name. */
  predicate Safe(s: string) {
    forall i :: 0 < i < |s| && StartsWith(s[i..], TENANT) ==> s[i - 1] != ':' && !IsAlphaNum(s[i - 1])
  }

  lemma SafeRest(s: string, n: nat)
    requires Safe(s) && n <= |s|
    ensures Safe(s[n..])
  {
    var r := s[n..];
    forall i | 0 < i < |r| && StartsWith(r[i..], TENANT) ensures r[i - 1] != ':' && !IsAlphaNum(r[i - 1]) {
      assert r[i..] == s[n + i..] && r[i - 1] == s[n + i - 1];
    }
  }

  lemma {:induction false} ScanPlain(t: string, rest: string)
    requires ':' !in t
    ensures Render(Scan(t + rest)) == t + Render(Scan(rest)) && Names(Scan(t + rest)) == Names(Scan(rest))
  {
    if t == [] {
      assert t + rest == rest;
    } else {
      assert t + rest == [t[0]] + (t[1..] + rest);
      ScanText(t[0], t[1..] + rest);
      ScanPlain(t[1..], rest);
      assert t == [t[0]] + t[1..];
    }
  }

  lemma ReplaceHead(c: char, rest: string, tenant: string)
    requires !StartsWith([c] + rest, TENANT)
    ensures Replace([c] + rest, tenant) == [c] + Replace(rest, tenant)
  {
    assert ([c] + rest)[1..] == rest;
  }

  lemma ReplaceTenant(rest: string, tenant: string)
    ensures Replace(TENANT + rest, tenant) == tenant + Replace(rest, tenant)
  {
    assert (TENANT + rest)[..|TENANT|] == TENANT;
    assert (TENANT + rest)[|TENANT|..] == rest;
  }

  lemma {:induction false} ReplaceSkips(p: string, rest: string, tenant: string)
    requires '{' !in p
    ensures Replace(p + rest, tenant) == p + Replace(rest, tenant)
  {
    if p == [] {
      assert p + rest == rest;
    } else {
      assert p + rest == [p[0]] + (p[1..] + rest);
      assert !StartsWith(p + rest, TENANT) by { assert (p + rest)[0] == p[0]; }
      ReplaceHead(p[0], p[1..] + rest, tenant);
      ReplaceSkips(p[1..], rest, tenant);
      assert p == [p[0]] + p[1..];
    }
  }

  /** What stands first after the replacement, if no `{tenant}` stood first before. */
  lemma ReplaceFirst(s: string, tenant: string)
    requires s != [] && !StartsWith(s, TENANT)
    ensures Replace(s, tenant) != [] && Replace(s, tenant)[0] == s[0]
  {
  }

  /** What a rendered query starts with, other than a placeholder, is text of the template. */
  lemma RenderedHead(s: string)
    requires Render(Scan(s)) != [] && Render(Scan(s))[0] != '?'
    ensures s != [] && Render(Scan(s)) == [s[0]] + Render(Scan(s[1..]))
  {
    assert s != [] && Scan(s)[0].Text?;
    assert Scan(s)[1..] == Scan(s[1..]);
  }

  /** Plain text at the start of the rendered query stands at the start of the template. */
  lemma {:induction false} RenderedStart(s: string, p: string)
    requires StartsWith(Render(Scan(s)), p) && '?' !in p
    ensures StartsWith(s, p)
    decreases |s|
  {
    hide Scan, Render;
    if p != [] {
      var r := Render(Scan(s));
      assert r[0] == p[0] && p[0] in p;
      RenderedHead(s);
      assert r[1..] == Render(Scan(s[1..]));
      assert r[1..][..|p| - 1] == p[1..] by { assert r[..|p|][1..] == p[1..]; }
      RenderedStart(s[1..], p[1..]);
      assert s[..|p|] == [s[0]] + s[1..][..|p| - 1];
      assert p == [p[0]] + p[1..];
    }
  }

  /** Replacing after scanning: the same names, and the tenant put into the rendered query. */
  ghost predicate Commutes(s: string, tenant: string) {
    && Names(Scan(Replace(s, tenant))) == Names(Scan(s))
    && Render(Scan(Replace(s, tenant))) == Replace(Render(Scan(s)), tenant)
  }

  lemma CommutesName(n: string, rest: string, tenant: string)
    requires IsName(n) && Safe(":" + n + rest) && (rest == [] || !IsAlphaNum(rest[0])) && Commutes(rest, tenant)
    ensures Commutes(":" + n + rest, tenant)
  {
    hide Scan, Replace;
    var s := ":" + n + rest;
    ReplaceSkips(":" + n, rest, tenant);
    if rest != [] {
      assert s[1 + |n|..] == rest && s[|n|] == n[|n| - 1];
      assert !StartsWith(rest, TENANT);
      ReplaceFirst(rest, tenant);
    } else {
      ReplaceNothing(tenant);
    }
    ScanName(n, rest);
    ScanName(n, Replace(rest, tenant));
    assert ":" + n + Replace(rest, tenant) == (":" + n) + Replace(rest, tenant);
    assert ([Name(n)] + Scan(rest))[1..] == Scan(rest);
    assert ([Name(n)] + Scan(Replace(rest, tenant)))[1..] == Scan(Replace(rest, tenant));
    ReplaceSkips("?", Render(Scan(rest)), tenant);
  }

  lemma ReplaceNothing(tenant: string)
    ensures Replace([], tenant) == []
  {
  }

  lemma CommutesTenant(rest: string, tenant: string)
    requires ':' !in tenant && Commutes(rest, tenant)
    ensures Commutes(TENANT + rest, tenant)
  {
    hide Scan, Replace;
    ReplaceTenant(rest, tenant);
    ScanPlain(tenant, Replace(rest, tenant));
    ScanPlain(TENANT, rest);
    ReplaceTenant(Render(Scan(rest)), tenant);
  }

  lemma CommutesText(c: char, rest: string, tenant: string)
    requires Safe([c] + rest) && (c != ':' || rest == [] || !IsAlpha(rest[0])) && !StartsWith([c] + rest, TENANT)
    requires Commutes(rest, tenant)
    ensures Commutes([c] + rest, tenant)
  {
    hide Scan, Replace;
    var s := [c] + rest;
    ReplaceHead(c, rest, tenant);
    if rest == [] {
      ReplaceNothing(tenant);
    } else if c == ':' {
      assert s[1..] == rest && s[0] == ':';
      assert !StartsWith(rest, TENANT);
      ReplaceFirst(rest, tenant);
    }
    ScanText(c, rest);
    ScanText(c, Replace(rest, tenant));
    assert ([Text(c)] + Scan(rest))[1..] == Scan(rest);
    assert ([Text(c)] + Scan(Replace(rest, tenant)))[1..] == Scan(Replace(rest, tenant));
    var r := [c] + Render(Scan(rest));
    assert Render(Scan(s)) == r;
    assert !StartsWith(r, TENANT) by {
      if StartsWith(r, TENANT) {
        RenderedStart(s, TENANT);
        assert false;
      }
    }
    ReplaceHead(c, Render(Scan(rest)), tenant);
  }

  /**
   * Tenants and scanning commute: for a tenant id without colons and a template in which no `{tenant}`
   * stands right behind a colon or a name character, replacing before or after the scan is the same.
   */
  lemma {:induction false} TenantCommutes(s: string, tenant: string)
    requires ':' !in tenant && Safe(s)
    ensures Commutes(s, tenant)
    decreases |s|
  {
    hide Scan, Replace, Commutes;
    if s == [] {
      NothingCommutes(tenant);
    } else if StartsWith(s, TENANT) {
      assert s == TENANT + s[|TENANT|..];
      SafeRest(s, |TENANT|);
      TenantCommutes(s[|TENANT|..], tenant);
      CommutesTenant(s[|TENANT|..], tenant);
    } else if AtName(s) {
      var n := Run(s[1..]);
      var name, rest := s[1..1 + n], s[1 + n..];
      assert name == s[1..][..n] && (n < |s[1..]| ==> s[1..][n] == s[1 + n]);
      assert s == ":" + name + rest;
      SafeRest(s, 1 + n);
      TenantCommutes(rest, tenant);
      CommutesName(name, rest, tenant);
    } else {
      assert s == [s[0]] + s[1..];
      SafeRest(s, 1);
      TenantCommutes(s[1..], tenant);
      CommutesText(s[0], s[1..], tenant);
    }
  }

  lemma NothingCommutes(tenant: string)
    ensures Commutes([], tenant)
  {
  }
}
