// The conditions of the main results in plain terms: over the objects, rows and entries themselves, not over
// the functions by which the controller finds them.
module Conditions {
  import opened Common
  import opened Registry
  import opened Placement
  import opened SecretKeys
  import opened Cluster
  import opened Convergence

  predicate DistinctProviders(ps: seq<Provider>) {
    forall i, j :: 0 <= i < j < |ps| ==> ps[i].name != ps[j].name
  }

  // Under distinct names each provider is found by its own.
  lemma ListedFound(ps: seq<Provider>, p: Provider)
    requires DistinctProviders(ps) && p in ps
    ensures GetProvider(ps, p.name) == Some(p)
  {
    var q := GetProvider(ps, p.name).value;
    var i :| 0 <= i < |ps| && ps[i] == p;
    var j :| 0 <= j < |ps| && ps[j] == q;
    assert i == j;
  }

  // The reference is to the provider p of that name, and conn is the last connection of its name there.
  ghost predicate Refers(w: World, spec: Spec, p: Provider, conn: Connection) {
    && spec.ref.Some? && p in w.providers && p.name == spec.ref.value.provider
    && exists j: nat :: LastOfName(p.connections, j, spec.ref.value.connection) && p.connections[j] == conn
  }

  lemma RefersIff(w: World, spec: Spec, conn: Connection)
    requires DistinctProviders(w.providers)
    ensures Referred(w, spec) == Some(conn) <==> exists p :: Refers(w, spec, p, conn)
  {
    if spec.ref.Some? {
      var ref := spec.ref.value;
      if Referred(w, spec) == Some(conn) {
        var p := GetProvider(w.providers, ref.provider).value;
        var j := FindsLast(p.connections, ref.connection);
        assert Refers(w, spec, p, conn);
      }
      if p :| Refers(w, spec, p, conn) {
        ListedFound(w.providers, p);
        var j: nat :| LastOfName(p.connections, j, ref.connection) && p.connections[j] == conn;
        assert p.connections[j] in p.connections;
        var i := FindsLast(p.connections, ref.connection);
        assert i == j;
      }
    }
  }

  // The server's table has a row of the request, or no row with its key, the user name or the database name.
  predicate HasRow(s: Server, key: Key) {
    exists row :: row in s.rows && row.key == key
  }

  predicate Free(s: Server, key: Key, i: Info) {
    forall row :: row in s.rows ==>
      row.key != key && row.info.username != i.username && row.info.dbname != i.dbname
  }

  lemma RowIff(s: Server, key: Key, i: Info)
    ensures Lookup(s.rows, key).Some? <==> HasRow(s, key)
    ensures !Clashes(s.rows, Row(key, i)) <==> Free(s, key, i)
  {
    if Lookup(s.rows, key).Some? {
      assert Row(key, Lookup(s.rows, key).value) in s.rows;
    }
    if Free(s, key, i) {
      forall k | 0 <= k < |s.rows| ensures !Conflict(s.rows[k], Row(key, i)) {
        assert s.rows[k] in s.rows;
      }
    }
    if !Clashes(s.rows, Row(key, i)) {
      forall row | row in s.rows
        ensures row.key != key && row.info.username != i.username && row.info.dbname != i.dbname
      {
        var k :| 0 <= k < |s.rows| && s.rows[k] == row;
        assert !Conflict(s.rows[k], Row(key, i));
      }
    }
  }

  // The types that createDatabase and deleteDatabase know as relational.
  predicate OfSql(typ: DbType) {
    !typ.MariaDbType? && !typ.MongoDbType?
  }

  // A pass has something to do: the request is not known to be ready at its generation.
  predicate Due(c: Object) {
    !c.status.conditions.ready.Up? || c.status.observedGeneration < c.generation
  }

  // The server of a connection.
  function At(w: World, conn: Connection): Server
    requires Addr(conn.hostname, conn.port) in w.servers
  {
    w.servers[Addr(conn.hostname, conn.port)]
  }

  // Usable for a request of this type: it has a password, and its server is there and of that type.
  predicate Usable(w: World, typ: DbType, conn: Connection) {
    HasPassword(w, conn) && Speaks(w, typ, conn)
  }

  // The row is there or the draw is free.
  predicate TakesRow(w: World, conn: Connection, drawn: Info)
    requires Addr(conn.hostname, conn.port) in w.servers
  {
    HasRow(At(w, conn), w.key) || Free(At(w, conn), w.key, drawn)
  }

  // What relDBInfo needs: the reference is to a usable connection whose server has the row or takes the one drawn.
  ghost predicate CanInform(w: World, spec: Spec, drawn: Info) {
    exists p, conn :: Refers(w, spec, p, conn) && Usable(w, spec.typ, conn) && TakesRow(w, conn, drawn)
  }

  // The search's choice: an enabled connection of a matching provider, of least load, the leftmost of those; all loads
  // resolve and this one is below the maximum int.
  ghost predicate LeastLoad(ps: seq<Provider>, q: Query, loads: Loads, x: nat, y: nat) {
    && Eligible(ps, q, x, y) && (x, y) in loads && loads[(x, y)] < 0x7FFF_FFFF_FFFF_FFFF
    && forall a: nat, b: nat :: Eligible(ps, q, a, b) ==>
         && (a, b) in loads && loads[(x, y)] <= loads[(a, b)]
         && (Before(a, b, x, y) ==> loads[(x, y)] < loads[(a, b)])
  }

  lemma PlaceIff(ps: seq<Provider>, q: Query, loads: Loads, x: nat, y: nat)
    ensures Place(ps, q, loads) == Some((x, y)) <==> LeastLoad(ps, q, loads, x, y)
  {
    PlaceIsLeastLoad(ps, q, loads);
    if LeastLoad(ps, q, loads, x, y) {
      var (a, b) := Place(ps, q, loads).value;
      assert Before(a, b, x, y) || Before(x, y, a, b) || (a == x && b == y);
    }
  }

  // Where a new request goes: to the last connection of the name of the one chosen.
  ghost predicate GoesTo(w: World, spec: Spec, loads: Loads, p: Provider, conn: Connection) {
    exists x: nat, y: nat, j: nat ::
      && LeastLoad(w.providers, Query(spec.selector, spec.typ), loads, x, y) && p == w.providers[x]
      && LastOfName(p.connections, j, p.connections[y].name) && conn == p.connections[j]
  }

  // What a new request needs.
  ghost predicate CanPlace(w: World, spec: Spec, loads: Loads, drawn: Info) {
    exists p, conn ::
      GoesTo(w, spec, loads, p, conn) && Usable(w, spec.typ, conn) && TakesRow(w, conn, drawn)
  }

  // What the consumer finds: the Service under the request's spec name, and the Secret under its own name, with
  // these credentials, each under its key.
  ghost predicate HandedOut(w: World, name: string, info: DbInfo) {
    var own := SecretRef(w.key.name, w.key.namespace);
    && name in w.services && w.services[name] == info.hostName
    && own in w.secrets && exists u :: UpperCase(name, u) && Says(w.secrets[own], u, name, info)
  }

  // The row of the request holds these credentials.
  predicate RowSays(w: World, conn: Connection, info: DbInfo) {
    && Addr(conn.hostname, conn.port) in w.servers
    && exists row :: row in At(w, conn).rows && row.key == w.key
         && row.info.username == info.userName && row.info.password == info.password && row.info.dbname == info.database
  }

  // What a seed needs: its Secret is there with its five entries, the port a number, and the last enabled connection at
  // its host and port, of a provider of matching selector and type, is usable.
  ghost predicate CanTakeOver(w: World, spec: Spec) {
    && spec.seed.Some? && spec.seed.value in w.secrets && OfSql(spec.typ)
    && var data := w.secrets[spec.seed.value];
       && {"database", "hostname", "username", "password", "port"} <= data.Keys && Atoi(data["port"]).Some?
       && exists i: nat, j: nat ::
            LastServes(w.providers, Query(spec.selector, spec.typ), data["hostname"], Atoi(data["port"]).value, i, j)
            && Usable(w, spec.typ, w.providers[i].connections[j])
  }

  lemma OneLast(ps: seq<Provider>, q: Query, hostname: string, port: int, i: nat, j: nat, a: nat, b: nat)
    requires LastServes(ps, q, hostname, port, i, j) && LastServes(ps, q, hostname, port, a, b)
    ensures i == a && j == b
  {
    assert Before(i, j, a, b) || Before(a, b, i, j) || (i == a && j == b);
  }

  // Nothing stands in the way of dropping the user of i: for PostgreSQL, that no other database is owned by it.
  predicate Unowned(s: Server, i: Info) {
    s.engine.MySql? || forall d :: d in s.dbs && s.dbs[d] == i.username ==> d == i.dbname
  }

  // A drop goes through with the row, or else with the draw.
  predicate TakesDrop(s: Server, key: Key, drawn: Info) {
    || (exists row :: row in s.rows && row.key == key && Unowned(s, row.info))
    || (Free(s, key, drawn) && Unowned(s, drawn))
  }

  // What a drop needs.
  ghost predicate CanDrop(w: World, spec: Spec, drawn: Info) {
    exists p, conn ::
      Refers(w, spec, p, conn) && Usable(w, spec.typ, conn) && TakesDrop(At(w, conn), w.key, drawn)
  }

  lemma TakesDropIff(s: Server, key: Key, drawn: Info)
    requires Unique(s.rows)
    ensures Completes(s, key, Drop, FirstRow(s, key, [], drawn)) <==> TakesDrop(s, key, drawn)
  {
    RowIff(s, key, drawn);
    if row :| row in s.rows && row.key == key {
      LookupIs(s.rows, key, row.info);
      assert Row(key, row.info) == row;
      forall other | other in s.rows && other.key == key ensures other == row {
        LookupIs(s.rows, key, other.info);
      }
    }
  }
}
