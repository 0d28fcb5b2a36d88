/** What a template is read as and expands to, spelled out on its characters. */
module TemplateRules {
  import opened Templates

  const LOWER := "abcdefghijklmnopqrstuvwxyz"
  const UPPER := "ABCDEFGHIJKLMNOPQRSTUVWXYZ"
  const DIGITS := "0123456789"

  /** What a name starts with, and what it goes on with. */
  const FIRST := LOWER + UPPER + "_"
  const LATER := FIRST + DIGITS

  lemma LowerCase(c: char)
    ensures c in LOWER <==> 'a' <= c <= 'z'
  {
  }

  lemma UpperCase(c: char)
    ensures c in UPPER <==> 'A' <= c <= 'Z'
  {
  }

  lemma FirstIsAlpha(c: char)
    ensures c in FIRST <==> IsAlpha(c)
  {
    hide LOWER, UPPER;
    LowerCase(c);
    UpperCase(c);
  }

  lemma LaterIsAlphaNum(c: char)
    ensures c in LATER <==> IsAlphaNum(c)
  {
    hide FIRST, LOWER, UPPER;
    FirstIsAlpha(c);
  }

  /** A reference to a parameter stands before the rest of a template: it starts as names do and goes on as far as names can. */
  ghost predicate Refers(name: string, rest: string) {
    && name != [] && name[0] in FIRST && (forall c :: c in name ==> c in LATER)
    && (rest == [] || rest[0] !in LATER)
  }

  /** A character before the rest of a template begins no reference. */
  ghost predicate Plain(c: char, rest: string) {
    c != ':' || rest == [] || rest[0] !in FIRST
  }

  lemma RefersToName(name: string, rest: string)
    requires Refers(name, rest)
    ensures IsName(name) && (rest == [] || !IsAlphaNum(rest[0]))
  {
    hide IsAlpha, IsAlphaNum, FIRST, LATER;
    FirstIsAlpha(name[0]);
    forall c | c in name ensures IsAlphaNum(c) {
      LaterIsAlphaNum(c);
    }
    if rest != [] {
      LaterIsAlphaNum(rest[0]);
    }
  }

  /** A colon and a name are read as a reference, and the scan goes on behind the name. */
  lemma ReadsName(name: string, rest: string)
    requires Refers(name, rest)
    ensures Scan(":" + name + rest) == [Name(name)] + Scan(rest)
  {
    RefersToName(name, rest);
    ScanName(name, rest);
  }

  /** Any other character is read as itself. */
  lemma ReadsText(c: char, rest: string)
    requires Plain(c, rest)
    ensures Scan([c] + rest) == [Text(c)] + Scan(rest)
  {
    hide IsAlpha, FIRST;
    if rest != [] {
      FirstIsAlpha(rest[0]);
    }
    ScanText(c, rest);
  }

  /** Every template is empty, or begins with a reference or a plain character; never with both. */
  lemma EitherOr(s: string)
    ensures s == [] || (exists c, rest :: s == [c] + rest && Plain(c, rest))
         || (exists name, rest :: s == ":" + name + rest && Refers(name, rest))
    ensures !((exists c, rest :: s == [c] + rest && Plain(c, rest))
              && (exists name, rest :: s == ":" + name + rest && Refers(name, rest)))
  {
    hide FIRST, LATER, IsAlpha, IsAlphaNum;
    if s != [] {
      var c, rest := s[0], s[1..];
      assert s == [c] + rest;
      if c == ':' && rest != [] {
        FirstIsAlpha(rest[0]);
        if IsAlpha(rest[0]) {
          NameAhead(rest);
        }
      }
    }
    if exists name, rest :: s == ":" + name + rest && Refers(name, rest) {
      var name, rest :| s == ":" + name + rest && Refers(name, rest);
      assert s[0] == ':' && s[1] == name[0];
      forall c, tail | s == [c] + tail ensures !Plain(c, tail) {
        assert tail == s[1..];
      }
    }
  }

  lemma NameAhead(s: string)
    requires s != [] && s[0] in FIRST
    ensures exists name, rest :: ":" + s == ":" + name + rest && Refers(name, rest)
  {
    hide FIRST, LATER, IsAlpha, IsAlphaNum;
    var n := Run(s);
    var name, rest := s[..n], s[n..];
    FirstIsAlpha(s[0]);
    AlphaRuns(s);
    forall c | c in name ensures c in LATER {
      LaterIsAlphaNum(c);
    }
    if rest != [] {
      LaterIsAlphaNum(rest[0]);
    }
    assert ":" + s == ":" + name + rest;
  }

  lemma AlphaRuns(s: string)
    requires s != [] && IsAlpha(s[0])
    ensures Run(s) > 0
  {
  }

  // -------------------------------------------------------------- expansion

  /** `strings.ReplaceAll`: nothing, the tenant for its placeholder, and other characters as they are. */
  lemma Replaces(c: char, rest: string, tenant: string)
    ensures Replace([], tenant) == []
    ensures Replace("{tenant}" + rest, tenant) == tenant + Replace(rest, tenant)
    ensures !("{tenant}" <= [c] + rest) ==> Replace([c] + rest, tenant) == [c] + Replace(rest, tenant)
  {
    ReplaceTenant(rest, tenant);
    if !("{tenant}" <= [c] + rest) {
      ReplaceHead(c, rest, tenant);
    }
  }

  lemma ExpandsNothing<V>(params: map<string, V>)
    ensures Expansion([], params) == Expanded([], [])
  {
  }

  /** A plain character stays in the query. */
  lemma ExpandsText<V>(c: char, rest: string, params: map<string, V>)
    requires Plain(c, rest)
    ensures Expansion([c] + rest, params) == match Expansion(rest, params)
                                             case Expanded(query, args) => Expanded([c] + query, args)
                                             case Missing(name) => Missing(name)
  {
    ReadsText(c, rest);
    ExpandsPiece(Text(c), [c] + rest, rest, params);
  }

  /** A reference becomes a question mark with its value, and without one it is what is missing. */
  lemma ExpandsName<V>(name: string, rest: string, params: map<string, V>)
    requires Refers(name, rest)
    ensures Expansion(":" + name + rest, params)
         == if name !in params then Missing(name)
            else match Expansion(rest, params)
                 case Expanded(query, args) => Expanded("?" + query, [params[name]] + args)
                 case Missing(other) => Missing(other)
  {
    ReadsName(name, rest);
    ExpandsPiece(Name(name), ":" + name + rest, rest, params);
  }

  lemma ExpandsPiece<V>(p: Piece, s: string, rest: string, params: map<string, V>)
    requires Scan(s) == [p] + Scan(rest)
    ensures Expansion(s, params)
         == if p.Name? && p.name !in params then Missing(p.name)
            else match Expansion(rest, params)
                 case Expanded(query, args) =>
                   Expanded((if p.Text? then [p.c] else "?") + query, (if p.Text? then [] else [params[p.name]]) + args)
                 case Missing(name) => Missing(name)
  {
    hide Scan;
    var ps := Scan(rest);
    assert ([p] + ps)[1..] == ps;
    var some := if p.Text? then [] else [p.name];
    var names := some + Names(ps);
    assert Names(Scan(s)) == names;
    if p.Name? {
      assert names[0] == p.name && names[1..] == Names(ps);
    } else {
      assert names == Names(ps);
    }
    if forall n :: n in names ==> n in params {
      forall n | n in Names(ps) ensures n in params {
        assert n in names;
      }
      assert Values(names, params) == (if p.Text? then [] else [params[p.name]]) + Values(Names(ps), params);
    } else if forall n :: n in Names(ps) ==> n in params {
      var n :| n in names && n !in params;
      assert p.Name? && n == p.name;
    }
  }
}
