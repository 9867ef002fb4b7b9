// Providers, their connections, and how a request is placed on one: the nested-loop
// search for the least loaded connection, the search for a seed's connection, and the
// look-up of a connection by name.
module Placement {
  import opened Common

  datatype DbType = MySqlType | MariaDbType | PostgresType | MongoDbType

  datatype SecretRef = SecretRef(name: string, namespace: string)

  datatype Connection = Connection(
    name: string, hostname: string, passwordSecretRef: SecretRef, port: int, username: string, enabled: bool)

  datatype Provider = Provider(name: string, typ: DbType, selector: string, connections: seq<Connection>)

  // int(^uint(0) >> 1)
  const MAX_INT: int := 0x7FFF_FFFF_FFFF_FFFF

  // The load of a connection, where its password Secret and Load call give one.
  type Loads = map<(nat, nat), int>

  // What the search goes by.
  datatype Query = Query(selector: string, typ: DbType)

  /** Look-up by name */

  // The last connection of that name.
  function FindConnection(cs: seq<Connection>, name: string): (r: Option<Connection>)
    ensures r.None? <==> forall c :: c in cs ==> c.name != name
    ensures r.Some? ==> r.value in cs && r.value.name == name
  {
    if cs == [] then None
    else if cs[|cs| - 1].name == name then Some(cs[|cs| - 1])
    else FindConnection(cs[..|cs| - 1], name)
  }

  method LookUpConnection(cs: seq<Connection>, name: string) returns (connection: Option<Connection>)
    ensures connection == FindConnection(cs, name)
  {
    connection := None;
    for i := 0 to |cs|
      invariant connection == FindConnection(cs[..i], name)
    {
      assert cs[..i + 1][..i] == cs[..i];
      if cs[i].name == name {
        connection := Some(cs[i]);
      }
    }
    assert cs[..|cs|] == cs;
  }

  predicate DistinctNames(cs: seq<Connection>) {
    forall i, j :: 0 <= i < j < |cs| ==> cs[i].name != cs[j].name
  }

  lemma {:induction false} FindByDistinctName(cs: seq<Connection>, k: nat)
    requires DistinctNames(cs) && k < |cs|
    ensures FindConnection(cs, cs[k].name) == Some(cs[k])
    decreases |cs|
  {
  }

  /** Least load */

  predicate Before(a: nat, b: nat, i: nat, j: nat) {
    a < i || (a == i && b < j)
  }

  predicate Eligible(ps: seq<Provider>, q: Query, a: nat, b: nat) {
    && a < |ps| && ps[a].selector == q.selector && ps[a].typ == q.typ
    && b < |ps[a].connections| && ps[a].connections[b].enabled
  }

  // The variables of the search: the best position so far and its load.
  datatype Search = Broken | Search(best: Option<(nat, nat)>, load: int)

  function Consider(ps: seq<Provider>, q: Query, loads: Loads, acc: Search, a: nat, b: nat): Search {
    if acc.Broken? || a >= |ps| || ps[a].selector != q.selector || ps[a].typ != q.typ then acc
    else if b >= |ps[a].connections| || !ps[a].connections[b].enabled then acc
    else if (a, b) !in loads then Broken
    else if loads[(a, b)] < acc.load then Search(Some((a, b)), loads[(a, b)])
    else acc
  }

  // The search after every position before (i, j).
  function Searched(ps: seq<Provider>, q: Query, loads: Loads, i: nat, j: nat): Search
    requires i <= |ps| && (j == 0 || (i < |ps| && j <= |ps[i].connections|))
    decreases i, j
  {
    if j > 0 then Consider(ps, q, loads, Searched(ps, q, loads, i, j - 1), i, j - 1)
    else if i > 0 then Searched(ps, q, loads, i - 1, |ps[i - 1].connections|)
    else Search(None, MAX_INT)
  }

  function Place(ps: seq<Provider>, q: Query, loads: Loads): Option<(nat, nat)> {
    var s := Searched(ps, q, loads, |ps|, 0);
    if s.Broken? then None else s.best
  }

  // Every load that the search needs resolves.
  ghost predicate Resolved(ps: seq<Provider>, q: Query, loads: Loads) {
    forall a: nat, b: nat :: Eligible(ps, q, a, b) ==> (a, b) in loads
  }

  ghost predicate Leftmost(ps: seq<Provider>, q: Query, loads: Loads, s: Search, i: nat, j: nat) {
    match s
    case Broken => exists a: nat, b: nat :: Before(a, b, i, j) && Eligible(ps, q, a, b) && (a, b) !in loads
    case Search(None, load) =>
      && load == MAX_INT
      && forall a: nat, b: nat :: Before(a, b, i, j) && Eligible(ps, q, a, b) ==>
         (a, b) in loads && loads[(a, b)] >= MAX_INT
    case Search(Some((x, y)), load) =>
      && Eligible(ps, q, x, y) && Before(x, y, i, j) && (x, y) in loads && loads[(x, y)] == load < MAX_INT
      && forall a: nat, b: nat :: Before(a, b, i, j) && Eligible(ps, q, a, b) ==>
           && (a, b) in loads && loads[(a, b)] >= load
           && (Before(a, b, x, y) ==> loads[(a, b)] > load)
  }

  lemma {:induction false} SearchedLeftmost(ps: seq<Provider>, q: Query, loads: Loads, i: nat, j: nat)
    requires i <= |ps| && (j == 0 || (i < |ps| && j <= |ps[i].connections|))
    ensures Leftmost(ps, q, loads, Searched(ps, q, loads, i, j), i, j)
    decreases i, j
  {
    if j > 0 {
      SearchedLeftmost(ps, q, loads, i, j - 1);
      ConsiderLeftmost(ps, q, loads, Searched(ps, q, loads, i, j - 1), i, j - 1);
    } else if i > 0 {
      var n := |ps[i - 1].connections|;
      SearchedLeftmost(ps, q, loads, i - 1, n);
      var s := Searched(ps, q, loads, i - 1, n);
      assert forall a: nat, b: nat :: Eligible(ps, q, a, b) ==> (Before(a, b, i, 0) <==> Before(a, b, i - 1, n));
    }
  }

  lemma ConsiderLeftmost(ps: seq<Provider>, q: Query, loads: Loads, s: Search, i: nat, j: nat)
    requires Leftmost(ps, q, loads, s, i, j)
    ensures Leftmost(ps, q, loads, Consider(ps, q, loads, s, i, j), i, j + 1)
  {
  }

  // The search returns the leftmost connection of least load among the enabled ones that match, and
  // fails exactly when some load does not resolve or none is below the maximum int.
  lemma PlaceIsLeastLoad(ps: seq<Provider>, q: Query, loads: Loads)
    ensures var r := Place(ps, q, loads);
      && (r.None? <==>
            || !Resolved(ps, q, loads)
            || forall a: nat, b: nat :: Eligible(ps, q, a, b) ==> (a, b) in loads && loads[(a, b)] >= MAX_INT)
      && (r.Some? ==>
            var (x, y) := r.value;
            && Eligible(ps, q, x, y) && (x, y) in loads
            && forall a: nat, b: nat :: Eligible(ps, q, a, b) ==>
                 && (a, b) in loads && loads[(x, y)] <= loads[(a, b)]
                 && (Before(a, b, x, y) ==> loads[(x, y)] < loads[(a, b)]))
  {
    SearchedLeftmost(ps, q, loads, |ps|, 0);
    assert forall a: nat, b: nat :: Eligible(ps, q, a, b) ==> Before(a, b, |ps|, 0);
  }

  // findRelationalDatabaseProvider.
  method FindRelationalDatabaseProvider(ps: seq<Provider>, q: Query, loads: Loads)
    returns (r: Result<(Provider, string)>)
    ensures r == match Place(ps, q, loads) {
      case None => Failure
      case Some((x, y)) => PlaceInRange(ps, q, loads); Success((ps[x], ps[x].connections[y].name))
    }
  {
    var load := MAX_INT;
    var provider: Option<Provider> := None;
    var connName := "";
    ghost var best: Option<(nat, nat)> := None;
    for i := 0 to |ps|
      invariant Searched(ps, q, loads, i, 0) == Search(best, load)
      invariant best.None? <==> provider.None?
      invariant best.Some? ==>
        && Eligible(ps, q, best.value.0, best.value.1)
        && provider == Some(ps[best.value.0]) && connName == ps[best.value.0].connections[best.value.1].name
    {
      var dbProvider := ps[i];
      var n := |dbProvider.connections|;
      if dbProvider.selector == q.selector && dbProvider.typ == q.typ {
        for j := 0 to n
          invariant Searched(ps, q, loads, i, j) == Search(best, load)
          invariant best.None? <==> provider.None?
          invariant best.Some? ==>
            && Eligible(ps, q, best.value.0, best.value.1)
            && provider == Some(ps[best.value.0]) && connName == ps[best.value.0].connections[best.value.1].name
        {
          var dbConnection := dbProvider.connections[j];
          if dbConnection.enabled {
            assert Eligible(ps, q, i, j);
            if (i, j) !in loads {
              BrokenStays(ps, q, loads, i, j + 1);
              return Failure;
            }
            var dbLoad := loads[(i, j)];
            if dbLoad < load {
              provider, connName, load := Some(dbProvider), dbConnection.name, dbLoad;
              best := Some((i, j));
            }
          }
        }
      } else {
        SkipProvider(ps, q, loads, i, n);
      }
    }
    if provider.None? {
      return Failure;
    }
    return Success((provider.value, connName));
  }

  lemma PlaceInRange(ps: seq<Provider>, q: Query, loads: Loads)
    ensures var r := Place(ps, q, loads); r.Some? ==> Eligible(ps, q, r.value.0, r.value.1)
  {
    PlaceIsLeastLoad(ps, q, loads);
  }

  lemma {:induction false} SkipProvider(ps: seq<Provider>, q: Query, loads: Loads, i: nat, n: nat)
    requires i < |ps| && n <= |ps[i].connections| && (ps[i].selector != q.selector || ps[i].typ != q.typ)
    ensures Searched(ps, q, loads, i, n) == Searched(ps, q, loads, i, 0)
    decreases n
  {
    if n == 0 {
    } else {
      SkipProvider(ps, q, loads, i, n - 1);
    }
  }

  // An error ends the search whatever comes after.
  lemma {:induction false} BrokenStays(ps: seq<Provider>, q: Query, loads: Loads, i: nat, j: nat)
    requires i < |ps| && j <= |ps[i].connections| && Searched(ps, q, loads, i, j).Broken?
    ensures Place(ps, q, loads).None?
    decreases |ps| - i, |ps[i].connections| - j
  {
    if j < |ps[i].connections| {
      BrokenStays(ps, q, loads, i, j + 1);
    } else {
      assert Searched(ps, q, loads, i + 1, 0).Broken?;
      if i + 1 < |ps| {
        BrokenStays(ps, q, loads, i + 1, 0);
      }
    }
  }

  predicate LastOfName(cs: seq<Connection>, j: nat, name: string) {
    j < |cs| && cs[j].name == name && forall l :: j < l < |cs| ==> cs[l].name != name
  }

  // Looking a connection up by its own name gives it back exactly when no different one of that name is the last.
  lemma {:induction false} FindsItselfIff(cs: seq<Connection>, k: nat)
    requires k < |cs|
    ensures FindConnection(cs, cs[k].name) == Some(cs[k])
        <==> forall j: nat :: LastOfName(cs, j, cs[k].name) ==> cs[j] == cs[k]
  {
    var j := FindsLast(cs, cs[k].name);
    assert LastOfName(cs, j, cs[k].name);
  }

  lemma {:induction false} FindsLast(cs: seq<Connection>, name: string) returns (j: nat)
    requires exists c :: c in cs && c.name == name
    ensures LastOfName(cs, j, name) && FindConnection(cs, name) == Some(cs[j])
    ensures forall i: nat :: LastOfName(cs, i, name) ==> i == j
    decreases |cs|
  {
    var n := |cs| - 1;
    if cs[n].name == name {
      j := n;
    } else {
      var c :| c in cs && c.name == name;
      assert c in cs[..n];
      j := FindsLast(cs[..n], name);
      assert forall i: nat :: LastOfName(cs, i, name) ==> LastOfName(cs[..n], i, name);
    }
  }

  // The later look-up by name finds the very connection that was selected exactly when the last of that name in
  // the selected provider is the same; distinct names, which the provider reconciler asks for, are enough.
  lemma SelectionAndLookupAgree(ps: seq<Provider>, q: Query, loads: Loads)
    ensures var r := Place(ps, q, loads);
      r.Some? ==>
        var (x, y) := r.value;
        && Eligible(ps, q, x, y)
        && var cs := ps[x].connections;
           (FindConnection(cs, cs[y].name) == Some(cs[y])
            <==> forall j: nat :: LastOfName(cs, j, cs[y].name) ==> cs[j] == cs[y])
           && (DistinctNames(cs) ==> FindConnection(cs, cs[y].name) == Some(cs[y]))
  {
    PlaceInRange(ps, q, loads);
    var r := Place(ps, q, loads);
    if r.Some? {
      var cs := ps[r.value.0].connections;
      FindsItselfIff(cs, r.value.1);
      if DistinctNames(cs) {
        FindByDistinctName(cs, r.value.1);
      }
    }
  }

  // Without them the database can be created elsewhere than where the load was least: here the second of two
  // connections of the same name.
  lemma SelectionAndLookupDisagree(p: Provider, a: Connection, b: Connection)
    requires p.connections == [a, b] && a.name == b.name && a != b && a.enabled && b.enabled
    ensures var q := Query(p.selector, p.typ); var loads: Loads := map[(0, 0) := 1, (0, 1) := 2];
      Place([p], q, loads) == Some((0, 0)) && FindConnection(p.connections, a.name) == Some(b)
  {
    var q := Query(p.selector, p.typ);
    var loads: Loads := map[(0, 0) := 1, (0, 1) := 2];
    assert Searched([p], q, loads, 0, 0) == Search(None, MAX_INT);
    assert Searched([p], q, loads, 0, 1) == Search(Some((0, 0)), 1);
    assert Searched([p], q, loads, 0, 2) == Search(Some((0, 0)), 1);
  }

  /** The connection of a seed */

  predicate Serves(c: Connection, hostname: string, port: int) {
    c.enabled && c.hostname == hostname && c.port == port
  }

  // The last enabled connection at the seed's host and port, and its provider.
  function SeedMatch(ps: seq<Provider>, q: Query, hostname: string, port: int): (r: Option<(Provider, Connection)>)
    ensures r.Some? ==> var (p, c) := r.value;
      p in ps && p.selector == q.selector && p.typ == q.typ && c in p.connections && Serves(c, hostname, port)
    ensures r.None? ==> forall p, c ::
      p in ps && p.selector == q.selector && p.typ == q.typ && c in p.connections ==> !Serves(c, hostname, port)
  {
    if ps == [] then None
    else
      var p := ps[|ps| - 1];
      var c := if p.selector == q.selector && p.typ == q.typ then LastServing(p.connections, hostname, port) else None;
      if c.Some? then Some((p, c.value)) else SeedMatch(ps[..|ps| - 1], q, hostname, port)
  }

  function LastServing(cs: seq<Connection>, hostname: string, port: int): (r: Option<Connection>)
    ensures r.Some? ==> r.value in cs && Serves(r.value, hostname, port)
    ensures r.None? ==> forall c :: c in cs ==> !Serves(c, hostname, port)
  {
    if cs == [] then None
    else
      var c := cs[|cs| - 1];
      if c.enabled && c.hostname == hostname && c.port == port then Some(c)
      else LastServing(cs[..|cs| - 1], hostname, port)
  }

  // No connection of a matching provider behind this one serves the seed.
  ghost predicate LastServes(ps: seq<Provider>, q: Query, hostname: string, port: int, i: nat, j: nat) {
    && i < |ps| && ps[i].selector == q.selector && ps[i].typ == q.typ
    && j < |ps[i].connections| && Serves(ps[i].connections[j], hostname, port)
    && forall a: nat, b: nat :: Before(i, j, a, b) && a < |ps| && b < |ps[a].connections| ==>
         ps[a].selector != q.selector || ps[a].typ != q.typ || !Serves(ps[a].connections[b], hostname, port)
  }

  // The match of a seed is the last connection that serves it.
  lemma {:induction false} SeedMatchIsLast(ps: seq<Provider>, q: Query, hostname: string, port: int)
    returns (i: nat, j: nat)
    requires SeedMatch(ps, q, hostname, port).Some?
    ensures LastServes(ps, q, hostname, port, i, j)
    ensures SeedMatch(ps, q, hostname, port) == Some((ps[i], ps[i].connections[j]))
    decreases |ps|
  {
    var n := |ps| - 1;
    var p := ps[n];
    if p.selector == q.selector && p.typ == q.typ && LastServing(p.connections, hostname, port).Some? {
      i := n;
      j := LastServingAt(p.connections, hostname, port);
    } else {
      i, j := SeedMatchIsLast(ps[..n], q, hostname, port);
      forall a: nat, b: nat | Before(i, j, a, b) && a < |ps| && b < |ps[a].connections|
        ensures ps[a].selector != q.selector || ps[a].typ != q.typ || !Serves(ps[a].connections[b], hostname, port)
      {
        if a < n {
          assert ps[..n][a] == ps[a];
        } else {
          assert p.connections[b] in p.connections;
        }
      }
    }
  }

  lemma {:induction false} LastServingAt(cs: seq<Connection>, hostname: string, port: int) returns (j: nat)
    requires LastServing(cs, hostname, port).Some?
    ensures j < |cs| && Serves(cs[j], hostname, port) && LastServing(cs, hostname, port) == Some(cs[j])
    ensures forall b :: j < b < |cs| ==> !Serves(cs[b], hostname, port)
    decreases |cs|
  {
    var n := |cs| - 1;
    if Serves(cs[n], hostname, port) {
      j := n;
    } else {
      j := LastServingAt(cs[..n], hostname, port);
    }
  }

  // The inner loop of relationalDatabaseInfoFromSeed.
  method FindServing(cs: seq<Connection>, hostname: string, port: int) returns (found: Option<Connection>)
    ensures found == LastServing(cs, hostname, port)
  {
    found := None;
    for j := 0 to |cs|
      invariant found == LastServing(cs[..j], hostname, port)
    {
      assert cs[..j + 1][..j] == cs[..j];
      if cs[j].enabled && cs[j].hostname == hostname && cs[j].port == port {
        found := Some(cs[j]);
      }
    }
    assert cs[..|cs|] == cs;
  }

  // The outer one.
  method FindSeedConnection(ps: seq<Provider>, q: Query, hostname: string, port: int)
    returns (r: Option<(Provider, Connection)>)
    ensures r == SeedMatch(ps, q, hostname, port)
  {
    r := None;
    for i := 0 to |ps|
      invariant r == SeedMatch(ps[..i], q, hostname, port)
    {
      var dbProvider := ps[i];
      assert ps[..i + 1][..i] == ps[..i];
      if dbProvider.selector == q.selector && dbProvider.typ == q.typ {
        var found := FindServing(dbProvider.connections, hostname, port);
        if found.Some? {
          r := Some((dbProvider, found.value));
        }
      }
    }
    assert ps[..|ps|] == ps;
  }
}
