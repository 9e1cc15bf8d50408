/** Reconciliation of a link measurement: its sessions are created, updated and pruned. */
module MeasurementController {
  import opened Wrappers
  import opened Names
  import opened ExporterConfig
  import opened Sessions
  import opened Manifests
  import opened Kubernetes
  import opened SessionController

  /** The session objects a measurement wants: one content for each name, under one label. */
  datatype Wanted = Wanted(place: Place, measurementLabel: string, names: seq<string>, contents: map<string, Manifest>)
  {
    ghost predicate Valid() {
      && (forall i, j :: 0 <= i < j < |names| ==> names[i] != names[j])
      && (forall name :: name in names <==> name in contents)
      && (forall name :: name in contents ==>
            && MeasurementKey in contents[name].labels.session
            && contents[name].labels.session[MeasurementKey] == measurementLabel)
    }

    function KeyOf(name: string): Key {
      Key(place, SessionKind, name)
    }

    predicate IsWanted(k: Key) {
      k.place == place && k.kind == SessionKind && k.name in contents
    }

    /** A session object under the measurement's label. */
    predicate IsListed(w: World, k: Key) {
      k.place == place && k.kind == SessionKind && HasLabel(At(w, k), MeasurementKey, measurementLabel)
    }
  }

  function WantedSlot(m: Wanted, w: World, k: Key): Slot {
    if m.IsWanted(k) then AppliedSlot(At(w, k), m.contents[k.name])
    else if m.IsListed(w, k) then DeletedSlot(At(w, k))
    else At(w, k)
  }

  function WantedGoal(m: Wanted, w: World): Key -> Slot {
    k => WantedSlot(m, w, k)
  }

  method ApplySessions(api: Api, m: Wanted, ghost w0: World, ghost goal: Key -> Slot)
    returns (r: Result<(), ApiError>, ghost done: set<Key>)
    requires m.Valid() && w0 == api.world && goal == WantedGoal(m, w0)
    modifies api
    ensures r.Success? ==> done == (set name | name in m.names :: m.KeyOf(name)) && Partway(w0, api.world, goal, done)
    ensures r.Failure? ==> Between(w0, api.world, goal)
    ensures old(api.Calm()) ==> api.Calm() && r.Success?
  {
    done := {};
    for i := 0 to |m.names|
      invariant done == set name | name in m.names[..i] :: m.KeyOf(name)
      invariant Partway(w0, api.world, goal, done)
      invariant old(api.Calm()) ==> api.Calm()
    {
      var name := m.names[i];
      assert name in m.names && m.IsWanted(m.KeyOf(name));
      assert name !in m.names[..i];
      assert m.names[..i + 1] == m.names[..i] + [name];
      r := Apply(api, m.KeyOf(name), m.contents[name], w0, goal, done);
      if r.Failure? {
        return;
      }
      done := done + {m.KeyOf(name)};
    }
    assert m.names[..|m.names|] == m.names;
    r := Success(());
  }

  method DeleteUnwanted(api: Api, m: Wanted, listed: seq<string>, ghost w0: World, ghost goal: Key -> Slot,
                        ghost before: set<Key>)
    returns (r: Result<(), ApiError>, ghost done: set<Key>)
    requires m.Valid() && Partway(w0, api.world, goal, before)
    requires forall name :: name in listed && name !in m.names ==>
      goal(m.KeyOf(name)) == DeletedSlot(At(w0, m.KeyOf(name)))
    modifies api
    ensures r.Success? ==> done == before + (set name | name in listed && name !in m.names :: m.KeyOf(name))
    ensures r.Success? ==> Partway(w0, api.world, goal, done)
    ensures r.Failure? ==> Between(w0, api.world, goal)
    ensures old(api.Calm()) ==> api.Calm() && r.Success?
  {
    done := before;
    for i := 0 to |listed|
      invariant done == before + set name | name in listed[..i] && name !in m.names :: m.KeyOf(name)
      invariant Partway(w0, api.world, goal, done)
      invariant old(api.Calm()) ==> api.Calm()
    {
      var name := listed[i];
      assert listed[..i + 1] == listed[..i] + [name];
      if name !in m.names {
        r := DeleteIfExists(api, m.KeyOf(name), w0, goal, done);
        if r.Failure? {
          return;
        }
        done := done + {m.KeyOf(name)};
      }
    }
    assert listed[..|listed|] == listed;
    r := Success(());
  }

  /** After the wanted sessions are applied, the listed ones are these and the old ones. */
  lemma ListedAfterApply(m: Wanted, w0: World, w: World, done: set<Key>, name: string)
    requires m.Valid() && done == (set n | n in m.names :: m.KeyOf(n)) && Partway(w0, w, WantedGoal(m, w0), done)
    ensures HasLabel(At(w, m.KeyOf(name)), MeasurementKey, m.measurementLabel) <==>
            name in m.names || m.IsListed(w0, m.KeyOf(name))
    ensures name !in m.names ==> At(w, m.KeyOf(name)) == At(w0, m.KeyOf(name))
  {
  }

  method SyncSessions(api: Api, m: Wanted) returns (r: Result<(), ApiError>)
    requires m.Valid()
    modifies api
    ensures r.Success? ==> Reached(api.world, WantedGoal(m, old(api.world)))
    ensures r.Failure? ==> Between(old(api.world), api.world, WantedGoal(m, old(api.world)))
    ensures old(api.Calm()) ==> api.Calm() && r.Success?
  {
    ghost var w0, goal := api.world, WantedGoal(m, api.world);
    ghost var done, all;
    r, done := ApplySessions(api, m, w0, goal);
    if r.Failure? {
      return;
    }
    var listed := api.List(m.place, SessionKind, MeasurementKey, m.measurementLabel);
    if listed.Failure? {
      return Failure(listed.error);
    }
    forall name { ListedAfterApply(m, w0, api.world, done, name); }
    r, all := DeleteUnwanted(api, m, listed.value, w0, goal, done);
    if r.Success? {
      AllSynced(m, w0, listed.value, done, all);
    }
  }

  lemma AllSynced(m: Wanted, w0: World, listed: seq<string>, done: set<Key>, all: set<Key>)
    requires m.Valid() && done == set n | n in m.names :: m.KeyOf(n)
    requires forall name :: name in listed <==> name in m.names || m.IsListed(w0, m.KeyOf(name))
    requires all == done + set name | name in listed && name !in m.names :: m.KeyOf(name)
    ensures forall k :: k !in all ==> WantedSlot(m, w0, k) == At(w0, k)
  {
  }

  // ----- What synchronising sessions guarantees -----

  /** From any set of sessions, exactly the wanted ones are left under the measurement's label,
      with the wanted content, and every other session is untouched. */
  lemma MeasurementConverges(m: Wanted, w: World, w': World)
    requires m.Valid() && Reached(w', WantedGoal(m, w))
    ensures forall k :: m.IsListed(w', k) <==> m.IsWanted(k)
    ensures forall k :: m.IsWanted(k) ==> Exists(w', k) && At(w', k).current.value.manifest == m.contents[k.name]
    ensures forall k :: !m.IsWanted(k) && !m.IsListed(w, k) ==> At(w', k) == At(w, k)
  {
    forall k
      ensures m.IsListed(w', k) <==> m.IsWanted(k)
      ensures m.IsWanted(k) ==> Exists(w', k) && At(w', k).current.value.manifest == m.contents[k.name]
      ensures !m.IsWanted(k) && !m.IsListed(w, k) ==> At(w', k) == At(w, k)
    {
      assert At(w', k) == WantedGoal(m, w)(k);
    }
  }

  /** A wanted session whose specification is unchanged keeps its identity and generation, so
      that its probe is not run again. */
  lemma UnchangedSessionKeepsGeneration(m: Wanted, w: World, w': World, k: Key)
    requires m.Valid() && Reached(w', WantedGoal(m, w)) && m.IsWanted(k) && Exists(w, k)
    ensures At(w', k).created == At(w, k).created && Exists(w', k)
    ensures At(w', k).current.value.uid == At(w, k).current.value.uid
    ensures At(w', k).current.value.generation ==
            At(w, k).current.value.generation +
            if SpecChanges(At(w, k).current.value.manifest, m.contents[k.name]) then 1 else 0
  {
    assert At(w', k) == WantedGoal(m, w)(k);
  }

  lemma WantedStable(m: Wanted, w: World, w1: World, k: Key)
    requires m.Valid() && Between(w, w1, WantedGoal(m, w))
    ensures WantedSlot(m, w1, k) == WantedSlot(m, w, k)
  {
  }

  /** Synchronising again changes nothing. */
  lemma MeasurementIdempotent(m: Wanted, w: World, w': World, w'': World)
    requires m.Valid() && Reached(w', WantedGoal(m, w)) && Reached(w'', WantedGoal(m, w'))
    ensures Same(w', w'')
  {
    forall k ensures At(w'', k) == At(w', k) {
      assert At(w'', k) == WantedGoal(m, w')(k) && At(w', k) == WantedGoal(m, w)(k);
      WantedStable(m, w, w', k) by { assert forall j :: At(w', j) == WantedGoal(m, w)(j); }
    }
  }

  ghost predicate FailedSyncs(m: Wanted, ws: seq<World>) {
    forall i :: 0 <= i < |ws| - 1 ==> Between(ws[i], ws[i + 1], WantedGoal(m, ws[i]))
  }

  /** Attempts that failed anywhere do not change where the first successful one ends. */
  lemma {:induction false} FailedSyncsRecover(m: Wanted, ws: seq<World>, w': World)
    requires m.Valid() && ws != [] && FailedSyncs(m, ws) && Reached(w', WantedGoal(m, ws[|ws| - 1]))
    ensures Reached(w', WantedGoal(m, ws[0]))
  {
    if |ws| > 1 {
      var last := ws[|ws| - 2];
      assert Between(last, ws[|ws| - 1], WantedGoal(m, last));
      forall k ensures At(w', k) == WantedGoal(m, last)(k) {
        WantedStable(m, last, ws[|ws| - 1], k);
        assert At(w', k) == WantedGoal(m, ws[|ws| - 1])(k);
      }
      FailedSyncsRecover(m, ws[..|ws| - 1], w');
    }
  }

  /** No wanted session of one measurement is wanted by, or labelled as, the other's. */
  ghost predicate MeasurementsApart(m: Wanted, n: Wanted, w: World) {
    && m.measurementLabel != n.measurementLabel
    && (forall k :: !(m.IsWanted(k) && n.IsWanted(k)))
    && (forall k :: !(m.IsWanted(k) && n.IsListed(w, k)) && !(n.IsWanted(k) && m.IsListed(w, k)))
  }

  /** Two measurements apart may be reconciled in either order. */
  lemma MeasurementsCommute(m: Wanted, n: Wanted, w: World, a: World, ab: World, b: World, ba: World)
    requires m.Valid() && n.Valid() && MeasurementsApart(m, n, w)
    requires Reached(a, WantedGoal(m, w)) && Reached(ab, WantedGoal(n, a))
    requires Reached(b, WantedGoal(n, w)) && Reached(ba, WantedGoal(m, b))
    ensures Same(ab, ba)
  {
    forall k ensures At(ba, k) == At(ab, k) {
      assert At(ab, k) == WantedGoal(n, a)(k) && At(a, k) == WantedGoal(m, w)(k);
      assert At(ba, k) == WantedGoal(m, b)(k) && At(b, k) == WantedGoal(n, w)(k);
    }
  }

  // ----- Node addresses -----

  datatype StoredProfile = StoredProfile(profile: Profile, resourceVersion: string)

  /** The profiles of the namespace, and the nodes of each API server with their internal address. */
  datatype Inventory = Inventory(profiles: map<string, StoredProfile>, nodes: map<(string, string), Option<string>>)

  function NodeCluster(op: Operator, e: EndpointSpec): string {
    match e.cluster case Some(cluster) => cluster case None => op.localName
  }

  function NodeAddress(op: Operator, inventory: Inventory, namespace: string, cluster: string,
                       node: string): Option<string> {
    match ContextOf(op, namespace, cluster)
    case None => None
    case Some(context) =>
      if (context.place.server, node) in inventory.nodes then inventory.nodes[(context.place.server, node)] else None
  }

  /** The addresses of the named endpoints, if all have one. */
  function AddressesOf(op: Operator, inventory: Inventory, namespace: string, endpoints: seq<EndpointSpec>):
    Option<map<(string, string), string>>
  {
    if endpoints == [] then Some(map[])
    else
      var e := endpoints[|endpoints| - 1];
      var key := (NodeCluster(op, e), e.nodeName);
      match AddressesOf(op, inventory, namespace, endpoints[..|endpoints| - 1])
      case None => None
      case Some(front) =>
        if e.nodeName == "" || key in front then Some(front)
        else
          match NodeAddress(op, inventory, namespace, key.0, key.1)
          case None => None
          case Some(address) => Some(front[key := address])
  }

  method ReadNode(api: Api, op: Operator, inventory: Inventory, namespace: string, cluster: string, node: string)
    returns (r: Result<string, OpError>)
    modifies api`faults
    ensures r.Success? ==> NodeAddress(op, inventory, namespace, cluster, node) == Some(r.value)
    ensures old(api.Calm()) ==> api.Calm()
    ensures old(api.Calm()) ==> (NodeAddress(op, inventory, namespace, cluster, node).Some? ==> r.Success?)
  {
    var context := ClusterContext(api, op, namespace, cluster);
    if context.Failure? {
      return Failure(context.error);
    }
    var fault := api.NextFault();
    if fault.Some? || (context.value.place.server, node) !in inventory.nodes {
      return Failure(ApiFailure);
    }
    var address := inventory.nodes[(context.value.place.server, node)];
    return if address.Some? then Success(address.value) else Failure(Permanent);
  }

  method NodeAddressesOf(api: Api, op: Operator, inventory: Inventory, namespace: string, endpoints: seq<EndpointSpec>)
    returns (r: Result<map<(string, string), string>, OpError>)
    modifies api`faults
    ensures r.Success? ==> AddressesOf(op, inventory, namespace, endpoints) == Some(r.value)
    ensures old(api.Calm()) ==> api.Calm() && (AddressesOf(op, inventory, namespace, endpoints).Some? ==> r.Success?)
  {
    var resolved: map<(string, string), string> := map[];
    for i := 0 to |endpoints|
      invariant AddressesOf(op, inventory, namespace, endpoints[..i]) == Some(resolved)
      invariant old(api.Calm()) ==> api.Calm()
    {
      assert endpoints[..i + 1][..i] == endpoints[..i];
      var key := (NodeCluster(op, endpoints[i]), endpoints[i].nodeName);
      if key.1 != "" && key !in resolved {
        var address := ReadNode(api, op, inventory, namespace, key.0, key.1);
        if address.Failure? {
          AddressesFail(op, inventory, namespace, endpoints, i + 1);
          return Failure(address.error);
        }
        resolved := resolved[key := address.value];
      }
    }
    assert endpoints[..|endpoints|] == endpoints;
    return Success(resolved);
  }

  lemma {:induction false} AddressesFail(op: Operator, inventory: Inventory, namespace: string,
                                         endpoints: seq<EndpointSpec>, i: nat)
    requires i <= |endpoints|
    ensures AddressesOf(op, inventory, namespace, endpoints[..i]).None? ==>
            AddressesOf(op, inventory, namespace, endpoints).None?
    decreases |endpoints|
  {
    if i < |endpoints| {
      AddressesFail(op, inventory, namespace, endpoints[..|endpoints| - 1], i);
      assert endpoints[..|endpoints| - 1][..i] == endpoints[..i];
    } else {
      assert endpoints[..i] == endpoints;
    }
  }

  /** The clusters and nodes under which named endpoints are looked up. */
  function LookupKeys(op: Operator, endpoints: seq<EndpointSpec>): set<(string, string)> {
    if endpoints == [] then {}
    else
      var e := endpoints[|endpoints| - 1];
      LookupKeys(op, endpoints[..|endpoints| - 1]) + LookupKey(op, e)
  }

  function LookupKey(op: Operator, e: EndpointSpec): set<(string, string)> {
    if e.nodeName == "" then {} else {(NodeCluster(op, e), e.nodeName)}
  }

  lemma {:induction false} LookedUp(op: Operator, endpoints: seq<EndpointSpec>, key: (string, string))
    ensures key in LookupKeys(op, endpoints) <==> exists e :: e in endpoints && key in LookupKey(op, e)
  {
    if endpoints != [] {
      var front, last := endpoints[..|endpoints| - 1], endpoints[|endpoints| - 1];
      LookedUp(op, front, key);
      assert endpoints == front + [last];
    }
  }

  lemma {:induction false} AddressedKeys(op: Operator, inventory: Inventory, namespace: string,
                                         endpoints: seq<EndpointSpec>)
    requires AddressesOf(op, inventory, namespace, endpoints).Some?
    ensures AddressesOf(op, inventory, namespace, endpoints).value.Keys == LookupKeys(op, endpoints)
  {
    if endpoints != [] {
      AddressedKeys(op, inventory, namespace, endpoints[..|endpoints| - 1]);
    }
  }

  /** An endpoint that names no cluster is looked up under the operator's local name, but used
      under the name "local": it has an address exactly if the two names are the same, or some
      endpoint is the same node and says "local". */
  lemma UnnamedClusterHasAddress(op: Operator, inventory: Inventory, namespace: string, endpoints: seq<EndpointSpec>,
                                 e: EndpointSpec)
    requires AddressesOf(op, inventory, namespace, endpoints).Some?
    requires e in endpoints && e.cluster == None && e.nodeName != ""
    ensures NormalizeEndpoint(e, NodeAddresses(AddressesOf(op, inventory, namespace, endpoints).value, map[])).Success?
            <==> op.localName == "local" ||
                 exists o :: o in endpoints && o.cluster == Some("local") && o.nodeName == e.nodeName
  {
    var key := ("local", e.nodeName);
    AddressedKeys(op, inventory, namespace, endpoints);
    LookedUp(op, endpoints, key);
    if op.localName == "local" { assert key in LookupKey(op, e); }
    if o :| o in endpoints && o.cluster == Some("local") && o.nodeName == e.nodeName {
      assert key in LookupKey(op, o);
    }
  }

  // ----- Reconciliation of a measurement -----

  /** The sessions a measurement expands to, if its profile and nodes can be found. */
  function SessionsOf(op: Operator, inventory: Inventory, body: Measurement, namespace: string): Option<seq<Session>> {
    if body.profileRef == "" || body.profileRef !in inventory.profiles then None
    else
      match AddressesOf(op, inventory, namespace, [body.source, body.destination])
      case None => None
      case Some(addresses) =>
        match Expanded(op.digest, body, inventory.profiles[body.profileRef].profile, NodeAddresses(addresses, map[]),
                       op.defaultImage)
        case Success(sessions) => Some(sessions)
        case Failure(_) => None
  }

  /** Under another local name, a measurement whose endpoints name no cluster has no sessions,
      whatever nodes and profiles there are. */
  lemma UnnamedClustersHaveNoSessions(op: Operator, inventory: Inventory, body: Measurement, namespace: string)
    requires op.localName != "local" && body.source.cluster == None && body.destination.cluster == None
    ensures SessionsOf(op, inventory, body, namespace) == None
  {
    var endpoints := [body.source, body.destination];
    if AddressesOf(op, inventory, namespace, endpoints).Some? && body.source.nodeName != "" {
      assert endpoints[0] == body.source;
      UnnamedClusterHasAddress(op, inventory, namespace, endpoints, body.source);
    }
    if body.profileRef in inventory.profiles && AddressesOf(op, inventory, namespace, endpoints).Some? {
      var addresses := NodeAddresses(AddressesOf(op, inventory, namespace, endpoints).value, map[]);
      NoSourceNoPlan(op.digest, body, inventory.profiles[body.profileRef].profile, addresses, op.defaultImage);
    }
  }

  lemma NoSourceNoPlan(digest: Digest, m: Measurement, profile: Profile, addresses: NodeAddresses, image: string)
    requires NormalizeEndpoint(m.source, addresses).Failure?
    ensures Expanded(digest, m, profile, addresses, image).Failure?
  {
  }

  /** It happens with every node known: an operator whose cluster is called "cluster-a". */
  lemma UnnamedClustersCanFail() returns (op: Operator, inventory: Inventory, a: EndpointSpec, b: EndpointSpec)
    ensures op.localName == "cluster-a"
    ensures a.cluster == None && b.cluster == None && a.nodeName != "" && b.nodeName != ""
    ensures var addresses := AddressesOf(op, inventory, "default", [a, b]);
      && addresses.Some?
      && NormalizeEndpoint(a, NodeAddresses(addresses.value, map[])) == Failure(MissingAddress)
      && NormalizeEndpoint(b, NodeAddresses(addresses.value, map[])) == Failure(MissingAddress)
  {
    op := Operator(_ => "00000000", s => DesignOf(_ => "00000000", s), "cluster-a", map[], "");
    inventory := Inventory(map[], map[("", "node-a") := Some("10.0.0.1"), ("", "node-b") := Some("10.0.0.2")]);
    a, b := EndpointSpec(None, "node-a"), EndpointSpec(None, "node-b");
    assert [a, b][..1] == [a] && [a][..0] == [];
    assert "cluster-a"[0] != "local"[0];
    assert AddressesOf(op, inventory, "default", [a]).Some?;
    UnnamedClusterHasAddress(op, inventory, "default", [a, b], [a, b][0]);
    UnnamedClusterHasAddress(op, inventory, "default", [a, b], [a, b][1]);
  }

  function ContentOf(s: Session, trigger: string): Manifest {
    SessionManifest(ResourceLabels(s.labels, ""), s.spec, trigger)
  }

  function ContentsOf(sessions: seq<Session>, trigger: string): map<string, Manifest> {
    if sessions == [] then map[]
    else
      var last := sessions[|sessions| - 1];
      ContentsOf(sessions[..|sessions| - 1], trigger)[last.name := ContentOf(last, trigger)]
  }

  function NamesOf(sessions: seq<Session>): seq<string> {
    if sessions == [] then []
    else NamesOf(sessions[..|sessions| - 1]) + [sessions[|sessions| - 1].name]
  }

  function WantedOf(sessions: seq<Session>, namespace: string, measurementLabel: string, trigger: string): Wanted {
    Wanted(Place("", namespace), measurementLabel, NamesOf(sessions), ContentsOf(sessions, trigger))
  }

  lemma {:induction false} NamesAt(sessions: seq<Session>)
    ensures |NamesOf(sessions)| == |sessions|
    ensures forall i :: 0 <= i < |sessions| ==> NamesOf(sessions)[i] == sessions[i].name
  {
    if sessions != [] { NamesAt(sessions[..|sessions| - 1]); }
  }

  /** Each name has the content of the session that bears it. */
  lemma {:induction false} ContentsAgree(sessions: seq<Session>, trigger: string)
    requires NamesDiffer(sessions)
    ensures forall name :: name in NamesOf(sessions) <==> name in ContentsOf(sessions, trigger)
    ensures forall name :: name in ContentsOf(sessions, trigger) ==>
      exists s :: s in sessions && s.name == name && ContentsOf(sessions, trigger)[name] == ContentOf(s, trigger)
  {
    if sessions != [] {
      var front, last := sessions[..|sessions| - 1], sessions[|sessions| - 1];
      ContentsAgree(front, trigger);
      assert sessions == front + [last];
    }
  }

  ghost predicate AllLabelled(sessions: seq<Session>, measurementLabel: string) {
    forall s :: s in sessions ==> MeasurementKey in s.labels && s.labels[MeasurementKey] == measurementLabel
  }

  lemma WantedIsValid(sessions: seq<Session>, namespace: string, measurementLabel: string, trigger: string)
    requires NamesDiffer(sessions) && AllLabelled(sessions, measurementLabel)
    ensures WantedOf(sessions, namespace, measurementLabel, trigger).Valid()
  {
    ContentsAgree(sessions, trigger);
    NamesAt(sessions);
  }

  lemma ExpandedIsLabelled(digest: Digest, p: Plan)
    requires IsChecked(p)
    ensures AllLabelled(Grid(Planner(digest, p), p.networkModes, p.directions), LabelValue(digest, p.measurement))
  {
    forall s | s in Grid(Planner(digest, p), p.networkModes, p.directions)
      ensures MeasurementKey in s.labels && s.labels[MeasurementKey] == LabelValue(digest, p.measurement)
    {
      ExpandedMember(digest, p, s);
      PlannedLabel(digest, p, s.spec.networkMode, s.spec.direction);
    }
  }

  lemma PlannedLabel(digest: Digest, p: Plan, mode: string, direction: string)
    ensures var labels := PlannedSession(digest, p, mode, direction).labels;
      MeasurementKey in labels && labels[MeasurementKey] == LabelValue(digest, p.measurement)
  {
  }

  /** The sessions of an expansion make a valid wish. */
  lemma ExpansionIsValid(digest: Digest, m: Measurement, profile: Profile, addresses: NodeAddresses, image: string,
                         namespace: string, trigger: string)
    requires NamesSeparated(digest, m.name)
    requires Expanded(digest, m, profile, addresses, image).Success?
    ensures WantedOf(Expanded(digest, m, profile, addresses, image).value, namespace, LabelValue(digest, m.name),
                     trigger).Valid()
  {
    PlanIsChecked(m, profile, addresses, image);
    var p := MakePlan(m, profile, addresses, image).value;
    PlanMeasurement(m, profile, addresses, image);
    ExpandedNamesDistinct(digest, p);
    ExpandedIsLabelled(digest, p);
    WantedIsValid(Grid(Planner(digest, p), p.networkModes, p.directions), namespace, LabelValue(digest, m.name),
                  trigger);
  }

  lemma PlanMeasurement(m: Measurement, profile: Profile, addresses: NodeAddresses, image: string)
    requires MakePlan(m, profile, addresses, image).Success?
    ensures MakePlan(m, profile, addresses, image).value.measurement == m.name
  {
  }

  /** The wish of a measurement: its sessions, stamped with the version of its profile. */
  function WishOf(op: Operator, inventory: Inventory, body: Measurement, namespace: string): Option<Wanted> {
    match SessionsOf(op, inventory, body, namespace)
    case None => None
    case Some(sessions) =>
      var trigger :=
        if body.profileRef in inventory.profiles then inventory.profiles[body.profileRef].resourceVersion else "";
      Some(WantedOf(sessions, namespace, LabelValue(op.digest, body.name), trigger))
  }

  method PlanMeasurementSessions(api: Api, op: Operator, inventory: Inventory, body: Measurement, namespace: string)
    returns (r: Result<seq<Session>, OpError>)
    requires NamesSeparated(op.digest, body.name)
    modifies api`faults
    ensures r.Success? ==> SessionsOf(op, inventory, body, namespace) == Some(r.value)
    ensures r.Success? ==> WishOf(op, inventory, body, namespace).Some?
    ensures r.Success? ==> WishOf(op, inventory, body, namespace).value.Valid()
    ensures old(api.Calm()) ==> api.Calm() && (SessionsOf(op, inventory, body, namespace).Some? ==> r.Success?)
  {
    if body.profileRef == "" {
      return Failure(Permanent);
    }
    var fault := api.NextFault();
    if fault.Some? {
      return Failure(ApiFailure);
    }
    if body.profileRef !in inventory.profiles {
      return Failure(Permanent);
    }
    var stored := inventory.profiles[body.profileRef];
    var addresses := NodeAddressesOf(api, op, inventory, namespace, [body.source, body.destination]);
    if addresses.Failure? {
      return Failure(addresses.error);
    }
    var sessions := ExpandMeasurementSessions(op.digest, body, stored.profile, NodeAddresses(addresses.value, map[]),
                                              op.defaultImage);
    if sessions.Failure? {
      return Failure(BadBody);
    }
    ExpansionIsValid(op.digest, body, stored.profile, NodeAddresses(addresses.value, map[]), op.defaultImage, namespace,
                     stored.resourceVersion);
    return Success(sessions.value);
  }

  method ReconcileMeasurement(api: Api, op: Operator, inventory: Inventory, body: Measurement, namespace: string)
    returns (r: Result<seq<Session>, OpError>)
    requires NamesSeparated(op.digest, body.name)
    modifies api
    ensures r.Success? ==> SessionsOf(op, inventory, body, namespace) == Some(r.value)
    ensures r.Success? ==> WishOf(op, inventory, body, namespace).Some? &&
                           Reached(api.world, WantedGoal(WishOf(op, inventory, body, namespace).value, old(api.world)))
    ensures r.Failure? ==>
      match WishOf(op, inventory, body, namespace)
      case Some(m) => Between(old(api.world), api.world, WantedGoal(m, old(api.world)))
      case None => api.world == old(api.world)
    ensures old(api.Calm()) && SessionsOf(op, inventory, body, namespace).Some? ==> r.Success?
  {
    r := PlanMeasurementSessions(api, op, inventory, body, namespace);
    if r.Failure? {
      return;
    }
    var synced := SyncSessions(api, WishOf(op, inventory, body, namespace).value);
    if synced.Failure? {
      r := Failure(ApiFailure);
    }
  }
}
