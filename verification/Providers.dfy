// The provider reconciler: it looks up every connection's password, requires distinct names, probes
// every connection, and reports Ready and the status of each connection.
module Providers {
  import opened Common
  import opened Placement
  import opened Cluster

  datatype Entry = Entry(name: string, hostname: string, version: string, available: bool, enabled: bool)

  datatype ProviderStatus = ProviderStatus(ready: Option<bool>, observedGeneration: nat, connectionStatus: seq<Entry>)

  datatype Instance = Instance(
    rv: nat, generation: nat, finalizer: bool, deleting: bool, connections: seq<Connection>, status: ProviderStatus)

  // reldbConn, as far as the controller uses it.
  datatype RelDbConn = RelDbConn(
    name: string, hostname: string, password: string, port: int, username: string, enabled: bool)

  // What a database server answers to Ping, Version and Initialize.
  datatype Probe = Probe(pings: bool, version: Option<string>, initializes: bool)

  /** Distinct names */

  function NameSet(cs: seq<Connection>): set<string> {
    set c | c in cs :: c.name
  }

  lemma DistinctExtends(cs: seq<Connection>, c: Connection)
    ensures NameSet(cs + [c]) == NameSet(cs) + {c.name}
    ensures DistinctNames(cs + [c]) <==> DistinctNames(cs) && c.name !in NameSet(cs)
  {
    var all := cs + [c];
    assert NameSet(all) == NameSet(cs) + {c.name};
    if DistinctNames(all) {
      forall i, j | 0 <= i < j < |cs| ensures cs[i].name != cs[j].name {
        assert all[i].name != all[j].name;
      }
      forall i | 0 <= i < |cs| ensures cs[i].name != c.name {
        assert all[i].name != all[|cs|].name;
      }
    }
    if DistinctNames(cs) && c.name !in NameSet(cs) {
      forall i, j | 0 <= i < j < |all| ensures all[i].name != all[j].name {
        if j == |cs| {
          assert cs[i] in cs;
        }
      }
    }
  }

  lemma NameAdded(cs: seq<Connection>, c: Connection)
    ensures NameSet(cs + [c]) == NameSet(cs) + {c.name}
  {
  }

  // The size of the set of names equals the length of the list exactly when no name occurs twice.
  lemma {:induction false} DistinctIffAllCounted(cs: seq<Connection>)
    ensures |NameSet(cs)| <= |cs|
    ensures |NameSet(cs)| == |cs| <==> DistinctNames(cs)
    decreases |cs|
  {
    if cs == [] {
    } else {
      var n := |cs| - 1;
      DistinctIffAllCounted(cs[..n]);
      DistinctExtends(cs[..n], cs[n]);
      assert cs[..n] + [cs[n]] == cs;
    }
  }

  /** Examining the connections */

  function PasswordAt(passwords: seq<Option<string>>, i: nat): Option<string> {
    if i < |passwords| then passwords[i] else None
  }

  // Every connection's Secret was found and holds a password.
  predicate AllPasswords(cs: seq<Connection>, passwords: seq<Option<string>>) {
    forall i :: 0 <= i < |cs| ==> PasswordAt(passwords, i).Some? && PasswordAt(passwords, i) != Some("")
  }

  predicate Describes(c: Connection, password: Option<string>, r: RelDbConn) {
    && password == Some(r.password)
    && r.name == c.name && r.hostname == c.hostname && r.port == c.port && r.username == c.username
    && r.enabled == c.enabled
  }

  // The first loop and the check after it. passwords[i] is what reading the Secret of connection i gave.
  method CollectConnections(cs: seq<Connection>, passwords: seq<Option<string>>) returns (r: Result<seq<RelDbConn>>)
    ensures r.Success? <==> AllPasswords(cs, passwords) && DistinctNames(cs)
    ensures r.Success? ==>
      |r.value| == |cs| && forall i :: 0 <= i < |cs| ==> Describes(cs[i], PasswordAt(passwords, i), r.value[i])
  {
    var uniqueNames: set<string> := {};
    var conns := [];
    for i := 0 to |cs|
      invariant AllPasswords(cs[..i], passwords)
      invariant uniqueNames == NameSet(cs[..i])
      invariant |conns| == i && forall k :: 0 <= k < i ==> Describes(cs[k], PasswordAt(passwords, k), conns[k])
    {
      var password := PasswordAt(passwords, i);
      if password.None? || password.value == "" {
        return Failure;
      }
      var conn := cs[i];
      assert cs[..i + 1] == cs[..i] + [conn];
      ghost var before := conns;
      conns := conns + [RelDbConn(conn.name, conn.hostname, password.value, conn.port, conn.username, conn.enabled)];
      assert forall k :: 0 <= k < i ==> conns[k] == before[k];
      uniqueNames := uniqueNames + {conn.name};
      NameAdded(cs[..i], conn);
    }
    assert cs[..|cs|] == cs;
    DistinctIffAllCounted(cs);
    if |uniqueNames| != |cs| {
      return Failure;
    }
    return Success(conns);
  }

  predicate Works(p: Probe) {
    p.pings && p.version.Some? && p.initializes
  }

  const NO_ANSWER := Probe(false, None, false)

  function ProbeAt(probes: seq<Probe>, i: nat): Probe {
    if i < |probes| then probes[i] else NO_ANSWER
  }

  predicate Reports(name: string, hostname: string, enabled: bool, p: Probe, e: Entry) {
    && e.name == name && e.hostname == hostname && e.enabled == enabled && (e.available <==> Works(p))
    && e.version == (if Works(p) then p.version.value else "")
  }

  // The second loop: one entry per connection in order, how many failed, and whether an enabled one works.
  method ExamineConnections(conns: seq<RelDbConn>, probes: seq<Probe>)
    returns (dbStatus: seq<Entry>, errors: nat, foundEnabledDatabase: bool)
    ensures |dbStatus| == |conns|
    ensures forall i :: 0 <= i < |conns| ==>
      Reports(conns[i].name, conns[i].hostname, conns[i].enabled, ProbeAt(probes, i), dbStatus[i])
    ensures errors == |conns| <==> forall i :: 0 <= i < |conns| ==> !dbStatus[i].available
    ensures foundEnabledDatabase <==> exists i :: 0 <= i < |conns| && dbStatus[i].available && dbStatus[i].enabled
  {
    dbStatus, errors, foundEnabledDatabase := [], 0, false;
    for i := 0 to |conns|
      invariant |dbStatus| == i && errors <= i
      invariant forall k :: 0 <= k < i ==>
        Reports(conns[k].name, conns[k].hostname, conns[k].enabled, ProbeAt(probes, k), dbStatus[k])
      invariant errors == i <==> forall k :: 0 <= k < i ==> !dbStatus[k].available
      invariant foundEnabledDatabase <==> exists k :: 0 <= k < i && dbStatus[k].available && dbStatus[k].enabled
    {
      var conn := conns[i];
      var probe := ProbeAt(probes, i);
      ghost var before := dbStatus;
      if !probe.pings || probe.version.None? || !probe.initializes {
        errors := errors + 1;
        dbStatus := dbStatus + [Entry(conn.name, conn.hostname, "", false, conn.enabled)];
      } else {
        dbStatus := dbStatus + [Entry(conn.name, conn.hostname, probe.version.value, true, conn.enabled)];
        if conn.enabled {
          foundEnabledDatabase := true;
        }
      }
      assert forall k :: 0 <= k < i ==> dbStatus[k] == before[k];
    }
  }

  /** The stored provider */

  // Entry k is rv k's version; the last API state may have no current one.
  datatype Api = Api(current: Option<Instance>, versions: seq<Instance>)

  datatype Move = Apply(connections: seq<Connection>) | MarkDeleted

  function Put(api: Api, o: Instance): Api {
    var o' := o.(rv := |api.versions|);
    Api(Some(o'), api.versions + [o'])
  }

  const NEW_STATUS := ProviderStatus(None, 0, [])

  function Moved(api: Api, m: Move): Api {
    match (m, api.current)
    case (Apply(cs), None) => Put(api, Instance(0, 1, false, false, cs, NEW_STATUS))
    case (Apply(cs), Some(o)) =>
      if o.connections == cs then api else Put(api, o.(connections := cs, generation := o.generation + 1))
    case (MarkDeleted, None) => api
    case (MarkDeleted, Some(o)) =>
      if o.deleting then api
      else if o.finalizer then Put(api, o.(deleting := true, generation := o.generation + 1))
      else api.(current := None)
  }

  function MovedAll(api: Api, ms: seq<Move>): Api
    decreases |ms|
  {
    if ms == [] then api else MovedAll(Moved(api, ms[0]), ms[1..])
  }

  // How a call goes: what happens before it arrives, whether it arrives and is answered, and which status
  // fields an Update's response leaves in memory.
  datatype Reply = Reply(before: seq<Move>, fault: Fault, keepReady: bool, keepGeneration: bool, keepEntries: bool)

  predicate IsCurrent(api: Api, c: Instance) {
    api.current.Some? && api.current.value.rv == c.rv
  }

  // A false enabled is left out of what the client sends, and the CRD's default for it is true.
  function SentAll(cs: seq<Connection>): (r: seq<Connection>)
    ensures |r| == |cs| && forall i :: 0 <= i < |cs| ==> r[i] == cs[i].(enabled := true)
  {
    seq(|cs|, i requires 0 <= i < |cs| => cs[i].(enabled := true))
  }

  function UpdatedApi(api: Api, c: Instance): Result<Api> {
    if !IsCurrent(api, c) then Failure
    else
      var o := api.current.value;
      var cs := SentAll(c.connections);
      var o' := o.(connections := cs, finalizer := c.finalizer,
                   generation := if cs == o.connections then o.generation else o.generation + 1);
      if o' == o then Success(api)
      else if o.deleting && !c.finalizer then Success(api.(current := None))
      else Success(Put(api, o'))
  }

  function StatusApi(api: Api, c: Instance): Result<Api> {
    if !IsCurrent(api, c) then Failure
    else
      var o' := api.current.value.(status := c.status);
      if o' == api.current.value then Success(api) else Success(Put(api, o'))
  }

  function Arrived(api: Api, r: Result<Api>, fault: Fault): (Api, bool) {
    if r.Failure? || fault.Refused? then (api, false) else (r.value, fault.Ok?)
  }

  function AfterUpdate(api: Api, c: Instance, reply: Reply): (Api, bool) {
    var moved := MovedAll(api, reply.before);
    Arrived(moved, UpdatedApi(moved, c), reply.fault)
  }

  function AfterStatusUpdate(api: Api, c: Instance, reply: Reply): (Api, bool) {
    var moved := MovedAll(api, reply.before);
    Arrived(moved, StatusApi(moved, c), reply.fault)
  }

  function InMemory(c: Instance, o: Instance, r: Reply): Instance {
    o.(status := ProviderStatus(
      if r.keepReady then c.status.ready else o.status.ready,
      if r.keepGeneration then c.status.observedGeneration else o.status.observedGeneration,
      if r.keepEntries then c.status.connectionStatus else o.status.connectionStatus))
  }

  /** A pass, by what it leaves behind */

  // What a pass is given: the version its Get returns (if any), the passwords and probes it reads, and how its
  // Update and its status write go.
  datatype Input = Input(version: nat, passwords: seq<Option<string>>, probes: seq<Probe>, update: Reply, report: Reply)

  // The early return of Reconcile.
  predicate Skips(c: Instance) {
    c.status.ready == Some(true) && c.status.observedGeneration >= c.generation
  }

  predicate Healthy(cs: seq<Connection>, passwords: seq<Option<string>>, probes: seq<Probe>) {
    && AllPasswords(cs, passwords) && DistinctNames(cs)
    && exists i :: 0 <= i < |cs| && cs[i].enabled && Works(ProbeAt(probes, i))
  }

  function Entries(cs: seq<Connection>, probes: seq<Probe>): (es: seq<Entry>)
    ensures |es| == |cs|
    ensures forall i :: 0 <= i < |cs| ==> Reports(cs[i].name, cs[i].hostname, cs[i].enabled, ProbeAt(probes, i), es[i])
  {
    seq(|cs|, i requires 0 <= i < |cs| =>
      var p := ProbeAt(probes, i);
      Entry(cs[i].name, cs[i].hostname, if Works(p) then p.version.value else "", Works(p), cs[i].enabled))
  }

  function Verdict(c: Instance, passwords: seq<Option<string>>, probes: seq<Probe>): Instance {
    var ready := Some(Healthy(c.connections, passwords, probes));
    if AllPasswords(c.connections, passwords) && DistinctNames(c.connections) then
      c.(status := ProviderStatus(ready, c.generation, Entries(c.connections, probes)))
    else c.(status := c.status.(ready := ready))
  }

  function Failed(c: Instance): Instance {
    c.(status := c.status.(ready := Some(false)))
  }

  function Pass(api: Api, x: Input): Api {
    if x.version >= |api.versions| then api
    else
      var c := api.versions[x.version];
      if c.deleting then
        if !c.finalizer then api
        else
          var c' := c.(finalizer := false);
          var (api', ok) := AfterUpdate(api, c', x.update);
          if ok then api' else AfterStatusUpdate(api', Failed(c'), x.report).0
      else if Skips(c) then api
      else if c.finalizer then AfterStatusUpdate(api, Verdict(c, x.passwords, x.probes), x.report).0
      else
        var c' := c.(finalizer := true);
        var (api', ok) := AfterUpdate(api, c', x.update);
        if !ok then AfterStatusUpdate(api', Failed(c'), x.report).0
        else if api'.current.None? then api'
        else AfterStatusUpdate(api', Verdict(InMemory(c', api'.current.value, x.update), x.passwords, x.probes),
          x.report).0
  }

  datatype Event = Outside(m: Move) | Work(x: Input)

  function Run(api: Api, events: seq<Event>): Api
    decreases |events|
  {
    if events == [] then api
    else Run(match events[0] case Outside(m) => Moved(api, m) case Work(x) => Pass(api, x), events[1..])
  }

  /** The invariant */

  predicate Usable(e: Entry) {
    e.enabled && e.available
  }

  // What Ready=True means for the generation it was observed at.
  predicate Reconciled(o: Instance) {
    && DistinctNames(o.connections)
    && |o.status.connectionStatus| == |o.connections|
    && (forall i :: 0 <= i < |o.connections| ==>
          var e := o.status.connectionStatus[i]; var c := o.connections[i];
          e.name == c.name && e.hostname == c.hostname && e.enabled == c.enabled)
    && exists i :: 0 <= i < |o.connections| && Usable(o.status.connectionStatus[i])
  }

  predicate Sound(o: Instance) {
    && o.status.observedGeneration <= o.generation
    && (o.status.ready == Some(true) && o.status.observedGeneration == o.generation ==> Reconciled(o))
  }

  ghost predicate Valid(api: Api) {
    && (forall k :: 0 <= k < |api.versions| ==> api.versions[k].rv == k && Sound(api.versions[k]))
    && (api.current.Some? ==> api.current.value in api.versions)
  }

  lemma CurrentIs(api: Api)
    requires Valid(api) && api.current.Some?
    ensures var o := api.current.value; o.rv < |api.versions| && api.versions[o.rv] == o && Sound(o)
  {
  }

  lemma PutKeeps(api: Api, o: Instance)
    requires Valid(api) && Sound(o)
    ensures Valid(Put(api, o))
  {
  }

  lemma MovedKeeps(api: Api, m: Move)
    requires Valid(api)
    ensures Valid(Moved(api, m)) && |api.versions| <= |Moved(api, m).versions|
    ensures forall c: Instance :: c.rv < |api.versions| && IsCurrent(Moved(api, m), c) ==> Moved(api, m) == api
  {
  }

  // A version that is still current after outside moves was not moved.
  lemma {:induction false} MovesKeep(api: Api, ms: seq<Move>)
    requires Valid(api)
    ensures Valid(MovedAll(api, ms)) && |api.versions| <= |MovedAll(api, ms).versions|
    ensures forall c: Instance :: c.rv < |api.versions| && IsCurrent(MovedAll(api, ms), c) ==> MovedAll(api, ms) == api
    decreases |ms|
  {
    if ms == [] {
    } else {
      MovedKeeps(api, ms[0]);
      MovesKeep(Moved(api, ms[0]), ms[1..]);
    }
  }

  // The copy c may be written as the status of the version it was made from.
  predicate Writable(api: Api, c: Instance) {
    c.rv < |api.versions| && (IsCurrent(api, c) ==> Sound(api.current.value.(status := c.status)))
  }

  lemma StatusKeeps(api: Api, c: Instance, reply: Reply)
    requires Valid(api) && Writable(api, c)
    ensures Valid(AfterStatusUpdate(api, c, reply).0)
  {
    MovesKeep(api, reply.before);
    var moved := MovedAll(api, reply.before);
    if IsCurrent(moved, c) {
      PutKeeps(moved, moved.current.value.(status := c.status));
    }
  }

  // The Update only changes the finalizer, and enables what was disabled, which is a new generation.
  lemma UpdateKeeps(api: Api, c: Instance, reply: Reply, stored: Instance)
    requires Valid(api) && c.rv < |api.versions| && api.versions[c.rv] == stored
    requires c == stored.(finalizer := c.finalizer)
    ensures var (api', ok) := AfterUpdate(api, c, reply);
      && Valid(api') && |api.versions| <= |api'.versions|
      && (IsCurrent(api', c) ==> api'.current.value == stored)
      && (ok && api'.current.Some? ==>
            && api'.current.value.status == stored.status
            && (api'.current.value == stored.(finalizer := c.finalizer, rv := api'.current.value.rv)
                || api'.current.value.generation == stored.generation + 1))
  {
    MovesKeep(api, reply.before);
    var moved := MovedAll(api, reply.before);
    if IsCurrent(moved, c) {
      CurrentIs(moved);
      if !(moved.current.value.deleting && !c.finalizer) {
        PutKeeps(moved, stored.(finalizer := c.finalizer));
      }
    } else if moved.current.Some? {
      CurrentIs(moved);
    }
  }

  lemma VerdictSound(c: Instance, passwords: seq<Option<string>>, probes: seq<Probe>)
    requires Sound(c)
    ensures Sound(Verdict(c, passwords, probes))
  {
  }

  lemma PassKeeps(api: Api, x: Input)
    requires Valid(api)
    ensures Valid(Pass(api, x))
  {
    if x.version < |api.versions| {
      var c := api.versions[x.version];
      if c.deleting {
        if c.finalizer {
          FinalizerPassKeeps(api, x, c, c.(finalizer := false));
        }
      } else if !Skips(c) {
        if c.finalizer {
          VerdictSound(c, x.passwords, x.probes);
          VerdictWritable(api, c, Verdict(c, x.passwords, x.probes));
          StatusKeeps(api, Verdict(c, x.passwords, x.probes), x.report);
        } else {
          FinalizerPassKeeps(api, x, c, c.(finalizer := true));
        }
      }
    }
  }

  lemma VerdictWritable(api: Api, c: Instance, v: Instance)
    requires Valid(api) && c.rv < |api.versions| && api.versions[c.rv] == c && v == c.(status := v.status) && Sound(v)
    ensures Writable(api, v)
  {
  }

  lemma FinalizerPassKeeps(api: Api, x: Input, stored: Instance, c: Instance)
    requires Valid(api) && stored.rv < |api.versions| && api.versions[stored.rv] == stored
    requires c == stored.(finalizer := c.finalizer)
    ensures var (api', ok) := AfterUpdate(api, c, x.update);
      && Valid(api')
      && Valid(AfterStatusUpdate(api', Failed(c), x.report).0)
      && (ok && api'.current.Some? ==>
            Valid(AfterStatusUpdate(api', Verdict(InMemory(c, api'.current.value, x.update), x.passwords, x.probes),
              x.report).0))
  {
    var (api', ok) := AfterUpdate(api, c, x.update);
    UpdateKeeps(api, c, x.update, stored);
    StatusKeeps(api', Failed(c), x.report);
    if ok && api'.current.Some? {
      CurrentIs(api');
      var o := api'.current.value;
      var d := InMemory(c, o, x.update);
      assert d == o;
      VerdictSound(d, x.passwords, x.probes);
      VerdictWritable(api', o, Verdict(d, x.passwords, x.probes));
      StatusKeeps(api', Verdict(d, x.passwords, x.probes), x.report);
    }
  }

  // An Update of an unchanged copy leaves the connections as they are exactly if all of them are enabled: a provider
  // loses its disabled ones, as such, with its finalizer write.
  lemma KeepsDisabledIff(api: Api, c: Instance)
    requires IsCurrent(api, c) && c.connections == api.current.value.connections
    requires api.current.value.deleting ==> c.finalizer
    ensures var r := UpdatedApi(api, c);
      && r.Success? && r.value.current.Some?
      && (r.value.current.value.connections == c.connections
          <==> forall i :: 0 <= i < |c.connections| ==> c.connections[i].enabled)
  {
    var cs := SentAll(c.connections);
    if cs == c.connections {
      forall i | 0 <= i < |cs| ensures c.connections[i].enabled {
        assert cs[i].enabled;
      }
    }
  }

  // Over every run, with stale reads, failing and lost calls and outside edits between any two of them.
  lemma {:induction false} RunKeeps(api: Api, events: seq<Event>)
    requires Valid(api)
    ensures Valid(Run(api, events))
    decreases |events|
  {
    if events == [] {
    } else {
      match events[0] {
        case Outside(m) => MovedKeeps(api, m);
        case Work(x) => PassKeeps(api, x);
      }
      RunKeeps(match events[0] case Outside(m) => Moved(api, m) case Work(x) => Pass(api, x), events[1..]);
    }
  }

  // Whenever the stored provider says Ready=True for its own generation: names are distinct, the status lists every
  // connection in order, some connection is enabled and available, and looking a connection up by its name
  // gives that very connection.
  lemma ReadyMeans(events: seq<Event>)
    ensures var api := Run(Api(None, []), events);
      api.current.Some? && api.current.value.status.ready == Some(true)
      && api.current.value.status.observedGeneration == api.current.value.generation ==>
        var o := api.current.value;
        && Reconciled(o)
        && forall k :: 0 <= k < |o.connections| ==>
           FindConnection(o.connections, o.connections[k].name) == Some(o.connections[k])
  {
    RunKeeps(Api(None, []), events);
    var api := Run(Api(None, []), events);
    if api.current.Some? {
      CurrentIs(api);
      var o := api.current.value;
      if Reconciled(o) {
        forall k | 0 <= k < |o.connections|
          ensures FindConnection(o.connections, o.connections[k].name) == Some(o.connections[k])
        {
          FindByDistinctName(o.connections, k);
        }
      }
    }
  }

  /** What a pass achieves */

  // Nothing happens between the read and the pass's own calls, and those are answered.
  predicate Undisturbed(api: Api, x: Input) {
    && api.current.Some? && x.version == api.current.value.rv
    && x.update.before == [] && x.update.fault.Ok? && x.report.before == [] && x.report.fault.Ok?
  }

  // Connection i answers all three probes.
  predicate Answers(x: Input, i: nat) {
    i < |x.probes| && x.probes[i].pings && x.probes[i].version.Some? && x.probes[i].initializes
  }

  predicate HasPasswordAt(x: Input, i: nat) {
    i < |x.passwords| && x.passwords[i].Some? && |x.passwords[i].value| > 0
  }

  // The passwords are all there and the names are distinct, so the connections are probed.
  predicate Probed(cs: seq<Connection>, x: Input) {
    && (forall i :: 0 <= i < |cs| ==> HasPasswordAt(x, i))
    && (forall i, j :: 0 <= i < |cs| && 0 <= j < |cs| && cs[i].name == cs[j].name ==> i == j)
  }

  predicate EntryIs(c: Connection, x: Input, i: nat, e: Entry) {
    && e.name == c.name && e.hostname == c.hostname && e.enabled == c.enabled && (e.available <==> Answers(x, i))
    && e.version == if Answers(x, i) then x.probes[i].version.value else ""
  }

  // The status stored for these connections; was is the one before.
  predicate StatusIs(o: Instance, x: Input, was: ProviderStatus) {
    var cs := o.connections;
    && o.status.ready == Some(Probed(cs, x) && exists i :: 0 <= i < |cs| && cs[i].enabled && Answers(x, i))
    && if Probed(cs, x) then
         && o.status.observedGeneration == o.generation && |o.status.connectionStatus| == |cs|
         && forall i :: 0 <= i < |cs| ==> EntryIs(cs[i], x, i, o.status.connectionStatus[i])
       else o.status == was.(ready := Some(false))
  }

  // An undisturbed pass over a provider that is not known to be ready at its generation stores one entry per
  // connection and its verdict, for the connections that are stored then: those it has read, all of them enabled if
  // the finalizer had yet to be added, and that is a new generation if one was not.
  lemma PassReports(api: Api, x: Input)
    requires Valid(api) && Undisturbed(api, x) && !api.current.value.deleting
    requires var o := api.current.value; o.status.ready != Some(true) || o.status.observedGeneration < o.generation
    ensures var o := api.current.value; var api' := Pass(api, x);
      && api'.current.Some?
      && var o' := api'.current.value;
         && o'.finalizer && !o'.deleting && StatusIs(o', x, o.status) && |o'.connections| == |o.connections|
         && (forall i :: 0 <= i < |o.connections| ==>
               o'.connections[i] == if o.finalizer then o.connections[i] else o.connections[i].(enabled := true))
         && o'.generation == if o'.connections == o.connections then o.generation else o.generation + 1
  {
    var o := api.current.value;
    CurrentIs(api);
    if o.finalizer {
      VerdictLands(api, x);
    } else {
      var api' := FinalizerLands(api, x);
      VerdictLands(api', x);
    }
  }

  lemma VerdictLands(api: Api, x: Input)
    requires api.current.Some? && x.report.before == [] && x.report.fault.Ok?
    ensures var o := api.current.value;
      var api' := AfterStatusUpdate(api, Verdict(o, x.passwords, x.probes), x.report).0;
      && api'.current.Some? && StatusIs(api'.current.value, x, o.status)
      && api'.current.value == o.(status := api'.current.value.status, rv := api'.current.value.rv)
  {
    var o := api.current.value;
    var v := Verdict(o, x.passwords, x.probes);
    VerdictReports(o, x);
    assert AfterStatusUpdate(api, v, x.report).0.current.value.status == v.status;
  }

  lemma FinalizerLands(api: Api, x: Input) returns (api': Api)
    requires Valid(api) && Undisturbed(api, x) && !api.current.value.deleting && !api.current.value.finalizer
    requires var o := api.current.value; o.status.ready != Some(true) || o.status.observedGeneration < o.generation
    ensures var o := api.current.value; var cs := SentAll(o.connections);
      && api'.current == Some(o.(finalizer := true, connections := cs, rv := |api.versions|,
                                 generation := if cs == o.connections then o.generation else o.generation + 1))
      && Pass(api, x) == AfterStatusUpdate(api', Verdict(api'.current.value, x.passwords, x.probes), x.report).0
  {
    var o := api.current.value;
    CurrentIs(api);
    var c := o.(finalizer := true);
    api' := AfterUpdate(api, c, x.update).0;
    assert InMemory(c, api'.current.value, x.update) == api'.current.value;
  }

  lemma VerdictReports(c: Instance, x: Input)
    ensures StatusIs(Verdict(c, x.passwords, x.probes), x, c.status)
  {
    ProbedIs(c.connections, x);
    assert forall i: nat :: Answers(x, i) <==> Works(ProbeAt(x.probes, i));
  }

  lemma ProbedIs(cs: seq<Connection>, x: Input)
    ensures Probed(cs, x) <==> AllPasswords(cs, x.passwords) && DistinctNames(cs)
  {
    if AllPasswords(cs, x.passwords) && DistinctNames(cs) {
      forall i | 0 <= i < |cs| ensures HasPasswordAt(x, i) {
        assert PasswordAt(x.passwords, i).Some? && PasswordAt(x.passwords, i) != Some("");
      }
      forall i, j | 0 <= i < |cs| && 0 <= j < |cs| && cs[i].name == cs[j].name ensures i == j {
        assert !(i < j) && !(j < i);
      }
    }
    if Probed(cs, x) {
      forall i | 0 <= i < |cs| ensures PasswordAt(x.passwords, i).Some? && PasswordAt(x.passwords, i) != Some("") {
        assert HasPasswordAt(x, i);
      }
    }
  }

  // A provider that is ready at its generation is left alone, whatever happens to the calls.
  lemma PassRests(api: Api, x: Input)
    requires x.version < |api.versions|
    requires var c := api.versions[x.version];
      !c.deleting && c.status.ready == Some(true) && c.status.observedGeneration >= c.generation
    ensures Pass(api, x) == api
  {
  }

  // So after a pass that has found the provider healthy the next one, over what it has stored, changes nothing.
  lemma ReadyThenRests(api: Api, x: Input, y: Input)
    requires Valid(api) && Undisturbed(api, x) && !api.current.value.deleting
    requires var o := api.current.value; o.status.ready != Some(true) || o.status.observedGeneration < o.generation
    requires var o' := Pass(api, x).current;
      o'.Some? && y.version == o'.value.rv && o'.value.status.ready == Some(true)
    ensures Pass(Pass(api, x), y) == Pass(api, x)
  {
    PassReports(api, x);
    PassKeeps(api, x);
    CurrentIs(Pass(api, x));
    PassRests(Pass(api, x), y);
  }

  // A provider being deleted goes with its finalizer.
  lemma PassLetsGo(api: Api, x: Input)
    requires Valid(api) && Undisturbed(api, x) && api.current.value.deleting
    ensures if api.current.value.finalizer then Pass(api, x) == api.(current := None) else Pass(api, x) == api
  {
    CurrentIs(api);
  }

  // One whose finalizer is to be added or removed, and cannot be, is reported as not ready.
  lemma RefusedIsReported(api: Api, x: Input)
    requires Valid(api) && Undisturbed(api, x.(update := x.update.(fault := Ok))) && x.update.fault.Refused?
    requires var o := api.current.value;
      && (o.deleting <==> o.finalizer)
      && (o.deleting || o.status.ready != Some(true) || o.status.observedGeneration < o.generation)
    ensures var o := api.current.value; var current := Pass(api, x).current;
      && current.Some?
      && current.value == o.(status := o.status.(ready := Some(false)), rv := current.value.rv)
  {
    CurrentIs(api);
  }

  /** The reconciler itself */

  // The outcome of what is read and examined, put together from the two loops.
  lemma VerdictIs(c: Instance, conns: seq<RelDbConn>, x: Input, dbStatus: seq<Entry>, found: bool)
    requires AllPasswords(c.connections, x.passwords) && DistinctNames(c.connections)
    requires |conns| == |c.connections| == |dbStatus|
    requires forall i :: 0 <= i < |conns| ==> Describes(c.connections[i], PasswordAt(x.passwords, i), conns[i])
    requires forall i :: 0 <= i < |conns| ==>
      Reports(conns[i].name, conns[i].hostname, conns[i].enabled, ProbeAt(x.probes, i), dbStatus[i])
    requires found <==> exists i :: 0 <= i < |conns| && dbStatus[i].available && dbStatus[i].enabled
    ensures Verdict(c, x.passwords, x.probes) == c.(status := ProviderStatus(Some(found), c.generation, dbStatus))
  {
  }

  class RelationalDatabaseProviderReconciler {
    var current: Option<Instance>
    var versions: seq<Instance>

    constructor ()
      ensures State() == Api(None, [])
    {
      current, versions := None, [];
    }

    function State(): Api
      reads this
    {
      Api(current, versions)
    }

    method Store(o: Instance)
      modifies this
      ensures State() == Put(old(State()), o)
    {
      current := Some(o.(rv := |versions|));
      versions := versions + [current.value];
    }

    // What others do before a call arrives.
    method Elapse(moves: seq<Move>)
      modifies this
      ensures State() == MovedAll(old(State()), moves)
    {
      var i := 0;
      while i < |moves|
        invariant 0 <= i <= |moves|
        invariant MovedAll(State(), moves[i..]) == MovedAll(old(State()), moves)
      {
        var api := Moved(State(), moves[i]);
        current, versions := api.current, api.versions;
        i := i + 1;
      }
    }

    method Update(instance: Instance, reply: Reply) returns (ok: bool)
      modifies this
      ensures (State(), ok) == AfterUpdate(old(State()), instance, reply)
    {
      Elapse(reply.before);
      if reply.fault.Refused? || current.None? || current.value.rv != instance.rv {
        return false;
      }
      var o := current.value;
      var sent := SentAll(instance.connections);
      var generation := if sent == o.connections then o.generation else o.generation + 1;
      if o.connections != sent || o.finalizer != instance.finalizer {
        if o.deleting && !instance.finalizer {
          current := None;
        } else {
          Store(o.(connections := sent, finalizer := instance.finalizer, generation := generation));
        }
      }
      return reply.fault.Ok?;
    }

    method UpdateStatus(instance: Instance, reply: Reply) returns (ok: bool)
      modifies this
      ensures (State(), ok) == AfterStatusUpdate(old(State()), instance, reply)
    {
      Elapse(reply.before);
      if reply.fault.Refused? || current.None? || current.value.rv != instance.rv {
        return false;
      }
      if current.value.status != instance.status {
        Store(current.value.(status := instance.status));
      }
      return reply.fault.Ok?;
    }

    method HandleError(instance: Instance, reply: Reply)
      modifies this
      ensures State() == AfterStatusUpdate(old(State()), Failed(instance), reply).0
    {
      var status := instance.status.(ready := Some(false));
      var _ := UpdateStatus(instance.(status := status), reply);
    }

    // From the look-up of the passwords on.
    method ReconcileConnections(c: Instance, x: Input) returns (ok: bool)
      modifies this
      ensures State() == AfterStatusUpdate(old(State()), Verdict(c, x.passwords, x.probes), x.report).0
      ensures ok ==> current.Some? && current.value.status.ready == Some(true)
    {
      var instance := c;
      var conns := CollectConnections(instance.connections, x.passwords);
      if conns.Failure? {
        HandleError(instance, x.report);
        return false;
      }
      var dbStatus, errors, foundEnabledDatabase := ExamineConnections(conns.value, x.probes);
      VerdictIs(instance, conns.value, x, dbStatus, foundEnabledDatabase);
      instance := instance.(status := instance.status.(connectionStatus := dbStatus,
        observedGeneration := instance.generation));
      if errors == |conns.value| || !foundEnabledDatabase {
        HandleError(instance, x.report);
        return false;
      }
      instance := instance.(status := instance.status.(ready := Some(true)));
      ok := UpdateStatus(instance, x.report);
    }

    // ok is whether Reconcile returns without an error.
    method Reconcile(x: Input) returns (ok: bool)
      modifies this
      ensures State() == Pass(old(State()), x)
      ensures x.version < |old(versions)| ==>
        var c := old(versions)[x.version];
        ok && !c.deleting && (c.status.ready != Some(true) || c.status.observedGeneration < c.generation) ==>
          current.None? || current.value.status.ready == Some(true)
    {
      if x.version >= |versions| {
        return true;
      }
      var instance := versions[x.version];
      if instance.deleting {
        if instance.finalizer {
          instance := instance.(finalizer := false);
          ok := Update(instance, x.update);
          if !ok {
            HandleError(instance, x.report);
          }
          return;
        }
        return true;
      }
      if instance.status.ready == Some(true) && instance.status.observedGeneration >= instance.generation {
        return true;
      }
      if !instance.finalizer {
        instance := instance.(finalizer := true);
        ok := Update(instance, x.update);
        if !ok {
          HandleError(instance, x.report);
          return;
        }
        if current.None? {
          return;
        }
        instance := InMemory(instance, current.value, x.update);
      }
      ok := ReconcileConnections(instance, x);
    }
  }
}
