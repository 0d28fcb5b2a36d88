/** The template expansion of the operation catalog, with its index loops. */
module Catalog {
  import opened Templates

  lemma {:induction false} NamesAppend(xs: seq<Piece>, ys: seq<Piece>)
    ensures Names(xs + ys) == Names(xs) + Names(ys)
  {
    if xs == [] {
      assert xs + ys == ys;
    } else {
      assert (xs + ys)[1..] == xs[1..] + ys;
      NamesAppend(xs[1..], ys);
    }
  }

  lemma {:induction false} RenderAppend(xs: seq<Piece>, ys: seq<Piece>)
    ensures Render(xs + ys) == Render(xs) + Render(ys)
  {
    if xs == [] {
      assert xs + ys == ys;
    } else {
      assert (xs + ys)[1..] == xs[1..] + ys;
      RenderAppend(xs[1..], ys);
    }
  }

  lemma OnePiece(p: Piece)
    ensures Names([p]) == (if p.Text? then [] else [p.name])
    ensures Render([p]) == (if p.Text? then [p.c] else "?")
  {
    assert [p][1..] == [];
  }

  /** What the loop has done up to position i: pieces scanned, their text and values written. */
  ghost predicate ScannedTo<V>(query: string, i: nat, done: seq<Piece>, params: map<string, V>, result: string,
          args: seq<V>)
    requires i <= |query|
  {
    && Scan(query) == done + Scan(query[i..])
    && result == Render(done)
    && (forall n :: n in Names(done) ==> n in params) && args == Values(Names(done), params)
  }

  lemma ValuesSnoc<V>(names: seq<string>, name: string, params: map<string, V>)
    requires (forall n :: n in names ==> n in params) && name in params
    ensures forall n :: n in names + [name] ==> n in params
    ensures Values(names + [name], params) == Values(names, params) + [params[name]]
  {
  }

  lemma ScanText1<V>(query: string, i: nat, done: seq<Piece>, params: map<string, V>, result: string, args: seq<V>)
    requires i < |query| && ScannedTo(query, i, done, params, result, args) && !AtName(query[i..])
    ensures ScannedTo(query, i + 1, done + [Text(query[i])], params, result + [query[i]], args)
  {
    hide Scan, Render, Names, Values;
    var p := Text(query[i]);
    NextText(query, i);
    NamesAppend(done, [p]);
    RenderAppend(done, [p]);
    OnePiece(p);
    assert done + ([p] + Scan(query[i + 1..])) == done + [p] + Scan(query[i + 1..]);
    assert Names(done) + [] == Names(done);
  }

  lemma NextText(query: string, i: nat)
    requires i < |query| && !AtName(query[i..])
    ensures Scan(query[i..]) == [Text(query[i])] + Scan(query[i + 1..])
  {
    assert query[i..][1..] == query[i + 1..];
  }

  /** The piece that a reference at position i is read as. */
  lemma NextName(query: string, i: nat, j: nat)
    requires i < j <= |query| && AtName(query[i..]) && j == i + 1 + Run(query[i + 1..])
    ensures Scan(query[i..]) == [Name(query[i + 1..j])] + Scan(query[j..])
  {
    var rest := query[i..];
    assert rest[1..] == query[i + 1..];
    assert rest[1..1 + Run(rest[1..])] == query[i + 1..j] && rest[1 + Run(rest[1..])..] == query[j..];
  }

  lemma AllNames<V>(query: string, i: nat, j: nat, done: seq<Piece>, params: map<string, V>, result: string,
          args: seq<V>)
    requires i < j <= |query| && ScannedTo(query, i, done, params, result, args)
    requires AtName(query[i..]) && j == i + 1 + Run(query[i + 1..])
    ensures Names(Scan(query)) == Names(done) + [query[i + 1..j]] + Names(Scan(query[j..]))
  {
    hide Scan, Render, Names, Values, Run;
    var p := Name(query[i + 1..j]);
    NextName(query, i, j);
    NamesAppend(done, [p] + Scan(query[j..]));
    NamesAppend([p], Scan(query[j..]));
    OnePiece(p);
  }

  lemma ScanName1<V>(query: string, i: nat, j: nat, done: seq<Piece>, params: map<string, V>, result: string,
          args: seq<V>)
    requires i < j <= |query| && ScannedTo(query, i, done, params, result, args)
    requires AtName(query[i..]) && j == i + 1 + Run(query[i + 1..]) && query[i + 1..j] in params
    ensures ScannedTo(query, j, done + [Name(query[i + 1..j])], params, result + "?", args + [params[query[i + 1..j]]])
  {
    hide Scan, Render, Names, Values, Run;
    var name := query[i + 1..j];
    NextName(query, i, j);
    NamesAppend(done, [Name(name)]);
    RenderAppend(done, [Name(name)]);
    OnePiece(Name(name));
    assert done + ([Name(name)] + Scan(query[j..])) == done + [Name(name)] + Scan(query[j..]);
    ValuesSnoc(Names(done), name, params);
  }

  lemma {:induction false} MissingAfter<V>(before: seq<string>, name: string, after: seq<string>, params: map<string,
          V>)
    requires (forall n :: n in before ==> n in params) && name !in params
    ensures name in before + [name] + after && FirstMissing(before + [name] + after, params) == name
  {
    var all := before + [name] + after;
    assert all[|before|] == name;
    if before != [] {
      MissingAfter(before[1..], name, after, params);
      assert all[1..] == before[1..] + [name] + after;
      assert all[0] == before[0] && before[0] in before;
    }
  }

  lemma RunStep(s: string, n: nat)
    requires n <= |s| && AllAlphaNum(s[..n])
    ensures n < |s| && IsAlphaNum(s[n]) ==> AllAlphaNum(s[..n + 1])
    ensures n == |s| || !IsAlphaNum(s[n]) ==> n == Run(s)
  {
    if n < |s| {
      assert s[..n + 1] == s[..n] + [s[n]];
    }
    if n == |s| || !IsAlphaNum(s[n]) {
      assert s == s[..n] + s[n..];
      RunOf(s[..n], s[n..]);
    }
  }

  /**
   * `ExpandSQL`: the scan loop. The outcome is that of the scanned template: the query with a question
   * mark for each reference and the values in the order of the references, or the first name without one.
   */
  method ExpandSQL<V>(sqlText: string, tenantID: string, params: map<string, V>) returns (r: Outcome<V>)
    ensures r == Expansion(Replace(sqlText, tenantID), params)
  {
    var query := Replace(sqlText, tenantID);
    var args, result := [], "";
    var i := 0;
    ghost var done := [];
    assert query[0..] == query;
    while i < |query|
      invariant 0 <= i <= |query|
      invariant ScannedTo(query, i, done, params, result, args)
    {
      hide ScannedTo, Scan;
      if query[i] == ':' && i + 1 < |query| && IsAlpha(query[i + 1]) {
        var j := i + 1;
        while j < |query| && IsAlphaNum(query[j])
          invariant i + 1 <= j <= |query| && AllAlphaNum(query[i + 1..][..j - i - 1])
          decreases |query| - j
        {
          RunStep(query[i + 1..], j - i - 1);
          j := j + 1;
        }
        RunStep(query[i + 1..], j - i - 1);
        var name := query[i + 1..j];
        AllNames(query, i, j, done, params, result, args);
        if name !in params {
          assert forall n :: n in Names(done) ==> n in params by { ScannedNames(query, i, done, params, result, args); }
          MissingAfter(Names(done), name, Names(Scan(query[j..])), params);
          return Missing(name);
        }
        ScanName1(query, i, j, done, params, result, args);
        args, result := args + [params[name]], result + "?";
        done := done + [Name(name)];
        i := j;
      } else {
        ScanText1(query, i, done, params, result, args);
        result := result + [query[i]];
        done := done + [Text(query[i])];
        i := i + 1;
      }
    }
    assert query[i..] == [];
    assert done + [] == done;
    r := Expanded(result, args);
  }

  lemma ScannedNames<V>(query: string, i: nat, done: seq<Piece>, params: map<string, V>, result: string, args: seq<V>)
    requires i <= |query| && ScannedTo(query, i, done, params, result, args)
    ensures forall n :: n in Names(done) ==> n in params
  {
  }

  datatype Sequence<V> = Queries(queries: seq<string>, args: seq<seq<V>>) | Failed(name: string)

  /**
   * `ExpandSequence`: either all the templates of an operation expand, each to its own query and arguments,
   * or the first that does not names what is missing.
   */
  method ExpandSequence<V>(templates: seq<string>, tenantID: string, params: map<string, V>) returns (r: Sequence<V>)
    ensures match r
            case Queries(queries, args) =>
              |queries| == |args| == |templates|
              && forall i :: 0 <= i < |templates| ==>
                   Expansion(Replace(templates[i], tenantID), params) == Expanded(queries[i], args[i])
            case Failed(name) =>
              exists i :: 0 <= i < |templates| && Expansion(Replace(templates[i], tenantID), params) == Missing(name)
                && forall j :: 0 <= j < i ==> Expansion(Replace(templates[j], tenantID), params).Expanded?
  {
    hide Expansion, Replace;
    var queries, allArgs := [], [];
    for i := 0 to |templates|
      invariant |queries| == |allArgs| == i
      invariant forall j :: 0 <= j < i ==>
                  Expansion(Replace(templates[j], tenantID), params) == Expanded(queries[j], allArgs[j])
    {
      var one := ExpandSQL(templates[i], tenantID, params);
      match one
      case Expanded(query, args) => queries, allArgs := queries + [query], allArgs + [args];
      case Missing(name) => return Failed(name);
    }
    return Queries(queries, allArgs);
  }

  /** Whole expansions: success means a value for every reference, a reference-free query, and one mark per value. */
  lemma ExpansionMeans<V>(s: string, params: map<string, V>)
    ensures var names := Names(Scan(s));
            match Expansion(s, params)
            case Expanded(query, args) =>
              && (forall n :: n in names ==> n in params)
              && |args| == |names| && (forall i :: 0 <= i < |args| ==> args[i] == params[names[i]])
              && Names(Scan(query)) == [] && Unscan(Scan(s)) == s && query == Render(Scan(s))
            case Missing(name) => name in names && name !in params
  {
    hide Scan, Render;
    var names := Names(Scan(s));
    ScanInverts(s);
    ScanWellFormed(s);
    RenderedIsPlain(Scan(s));
    if exists n :: n in names && n !in params {
      FirstIsMissing(names, params);
    }
  }

  lemma {:induction false} FirstIsMissing<V>(names: seq<string>, params: map<string, V>)
    requires exists n :: n in names && n !in params
    ensures FirstMissing(names, params) in names && FirstMissing(names, params) !in params
  {
    if names[0] in params {
      assert exists n :: n in names[1..] && n !in params by {
        var n :| n in names && n !in params;
        assert n != names[0];
        assert names == [names[0]] + names[1..];
        assert n in names[1..];
      }
      FirstIsMissing(names[1..], params);
    }
  }
}
