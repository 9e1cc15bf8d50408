/** What the store holds for a measurement once it is reconciled, read off the store and in terms
    of the measurement, its profile and the nodes. */
module MeasurementMeaning {
  import opened Wrappers
  import opened Names
  import opened Sessions
  import opened Manifests
  import opened Kubernetes
  import opened SessionController
  import opened MeasurementController
  import opened StatusMeaning
  import opened Expansion

  // ----- Addresses -----

  /** The node has this address at the API server of its cluster. */
  ghost predicate IsNodeAddress(op: Operator, inventory: Inventory, namespace: string, cluster: string, node: string,
                                address: string) {
    exists c :: IsAt(op, namespace, cluster, c) && (c.place.server, node) in inventory.nodes
                && inventory.nodes[(c.place.server, node)] == Some(address)
  }

  lemma NodeAddressMeans(op: Operator, inventory: Inventory, namespace: string, cluster: string, node: string)
    ensures var r := NodeAddress(op, inventory, namespace, cluster, node);
      r.Some? ==> IsNodeAddress(op, inventory, namespace, cluster, node, r.value)
  {
    if ContextOf(op, namespace, cluster).Some? {
      assert IsAt(op, namespace, cluster, ContextOf(op, namespace, cluster).value);
    }
  }

  ghost predicate AreNodeAddresses(op: Operator, inventory: Inventory, namespace: string,
                                   addresses: map<(string, string), string>) {
    forall key :: key in addresses ==> IsNodeAddress(op, inventory, namespace, key.0, key.1, addresses[key])
  }

  lemma OneMoreAddress(op: Operator, inventory: Inventory, namespace: string, addresses: map<(string, string), string>,
                       key: (string, string), address: string)
    requires AreNodeAddresses(op, inventory, namespace, addresses)
    requires IsNodeAddress(op, inventory, namespace, key.0, key.1, address)
    ensures AreNodeAddresses(op, inventory, namespace, addresses[key := address])
  {
  }

  lemma {:induction false} AddressesMean(op: Operator, inventory: Inventory, namespace: string,
                                         endpoints: seq<EndpointSpec>)
    ensures var r := AddressesOf(op, inventory, namespace, endpoints);
      r.Some? ==> AreNodeAddresses(op, inventory, namespace, r.value)
  {
    if endpoints != [] && AddressesOf(op, inventory, namespace, endpoints).Some? {
      var e := endpoints[|endpoints| - 1];
      var key := (NodeCluster(op, e), e.nodeName);
      var front := AddressesOf(op, inventory, namespace, endpoints[..|endpoints| - 1]);
      AddressesMean(op, inventory, namespace, endpoints[..|endpoints| - 1]);
      var r := NodeAddress(op, inventory, namespace, key.0, key.1);
      NodeAddressMeans(op, inventory, namespace, key.0, key.1);
      if r.Some? { OneMoreAddress(op, inventory, namespace, front.value, key, r.value); }
    }
  }

  // ----- Contents -----

  /** A session object with this content. */
  predicate IsContentOf(m: Manifest, s: Session, trigger: string) {
    m.SessionManifest? && m.session == s.spec && m.labels.session == s.labels && m.trigger == trigger
  }

  /** The contents are those of the sessions, by name. */
  ghost predicate AreContents(sessions: seq<Session>, trigger: string, contents: map<string, Manifest>) {
    && (forall s :: s in sessions ==> s.name in contents && IsContentOf(contents[s.name], s, trigger))
    && (forall name :: name in contents ==> exists s :: s in sessions && s.name == name)
  }

  lemma OneMoreContent(front: seq<Session>, last: Session, trigger: string, contents: map<string, Manifest>,
                       m: Manifest)
    requires AreContents(front, trigger, contents) && IsContentOf(m, last, trigger)
    requires forall s :: s in front ==> s.name != last.name
    ensures AreContents(front + [last], trigger, contents[last.name := m])
  {
    var contents' := contents[last.name := m];
    forall name | name in contents' ensures exists s :: s in front + [last] && s.name == name {
      if name == last.name {
        assert last in front + [last];
      } else {
        var s :| s in front && s.name == name;
        assert s in front + [last];
      }
    }
  }

  lemma FrontDiffers(sessions: seq<Session>)
    requires sessions != [] && NamesDiffer(sessions)
    ensures var front, last := sessions[..|sessions| - 1], sessions[|sessions| - 1];
      NamesDiffer(front) && forall s :: s in front ==> s.name != last.name
  {
    var front := sessions[..|sessions| - 1];
    forall s | s in front ensures s.name != sessions[|sessions| - 1].name {
      var i :| 0 <= i < |front| && front[i] == s;
      assert sessions[i].name != sessions[|sessions| - 1].name;
    }
  }

  lemma {:induction false} ContentMeans(sessions: seq<Session>, trigger: string)
    requires NamesDiffer(sessions)
    ensures AreContents(sessions, trigger, ContentsOf(sessions, trigger))
  {
    if sessions != [] {
      var front, last := sessions[..|sessions| - 1], sessions[|sessions| - 1];
      FrontDiffers(sessions);
      ContentMeans(front, trigger);
      OneMoreContent(front, last, trigger, ContentsOf(front, trigger), ContentOf(last, trigger));
      assert sessions == front + [last];
    }
  }

  // ----- The store -----

  function SessionAt(namespace: string, name: string): Key {
    Key(Place("", namespace), SessionKind, name)
  }

  ghost predicate HoldsSession(w: World, namespace: string, s: Session, trigger: string) {
    var k := SessionAt(namespace, s.name);
    Exists(w, k) && IsContentOf(At(w, k).current.value.manifest, s, trigger)
  }

  /** The objects under the measurement's label are these sessions and no others. */
  ghost predicate HoldsExactly(w: World, namespace: string, sessions: seq<Session>, trigger: string,
                               measurementLabel: string) {
    && (forall s :: s in sessions ==> HoldsSession(w, namespace, s, trigger))
    && forall k: Key | k.place == Place("", namespace) && k.kind == SessionKind &&
        HasLabel(At(w, k), MeasurementKey, measurementLabel) ::
         exists s :: s in sessions && s.name == k.name
  }

  lemma WantedIsHeld(sessions: seq<Session>, namespace: string, measurementLabel: string, trigger: string, w: World,
                     w': World)
    requires NamesDiffer(sessions) && AllLabelled(sessions, measurementLabel)
    requires Reached(w', WantedGoal(WantedOf(sessions, namespace, measurementLabel, trigger), w))
    ensures HoldsExactly(w', namespace, sessions, trigger, measurementLabel)
  {
    var m := WantedOf(sessions, namespace, measurementLabel, trigger);
    WantedIsValid(sessions, namespace, measurementLabel, trigger);
    ContentMeans(sessions, trigger);
    MeasurementConverges(m, w, w');
    forall s | s in sessions ensures HoldsSession(w', namespace, s, trigger) {
      assert m.IsWanted(SessionAt(namespace, s.name));
    }
    forall k: Key | k.place == Place("", namespace) && k.kind == SessionKind &&
        HasLabel(At(w', k), MeasurementKey, measurementLabel)
      ensures exists s :: s in sessions && s.name == k.name
    {
      assert m.IsListed(w', k);
    }
  }

  lemma ExpandedIsKept(digest: Digest, m: Measurement, profile: Profile, addresses: NodeAddresses, image: string)
    requires NamesSeparated(digest, m.name) && Expanded(digest, m, profile, addresses, image).Success?
    ensures NamesDiffer(Expanded(digest, m, profile, addresses, image).value)
    ensures AllLabelled(Expanded(digest, m, profile, addresses, image).value, LabelValue(digest, m.name))
  {
    PlanIsChecked(m, profile, addresses, image);
    PlanMeasurement(m, profile, addresses, image);
    ExpandedNamesDistinct(digest, MakePlan(m, profile, addresses, image).value);
    ExpandedIsLabelled(digest, MakePlan(m, profile, addresses, image).value);
  }

  // ----- The sessions -----

  /** Both ends have the address of their node in their cluster. */
  ghost predicate HasNodes(op: Operator, inventory: Inventory, namespace: string, s: SessionSpec) {
    && IsNodeAddress(op, inventory, namespace, s.source.cluster, s.source.nodeName, s.source.nodeAddress)
    && IsNodeAddress(op, inventory, namespace, s.destination.cluster, s.destination.nodeName, s.destination.nodeAddress)
  }

  /** For every mode and direction a measurement chooses there is a session, and each has its ends,
      labels and settings, with these addresses. */
  ghost predicate AreSessionsOf(digest: Digest, body: Measurement, profile: Profile, addresses: NodeAddresses,
                                image: string,
                                sessions: seq<Session>) {
    && (forall s :: s in sessions ==> IsSessionOf(digest, body, profile, addresses, image, s))
    && forall mode, direction | mode in ChosenModes(body) && direction in ChosenDirections(body) ::
         exists s :: s in sessions && s.spec.networkMode == mode && s.spec.direction == direction
  }

  ghost predicate HaveNodes(op: Operator, inventory: Inventory, namespace: string, sessions: seq<Session>) {
    forall s :: s in sessions ==> HasNodes(op, inventory, namespace, s.spec)
  }

  lemma EndMeans(op: Operator, inventory: Inventory, namespace: string, spec: EndpointSpec, addresses: NodeAddresses,
                 e: Endpoint)
    requires IsEndpoint(spec, addresses, e) && addresses.nodes == map[]
    requires AreNodeAddresses(op, inventory, namespace, addresses.pairs)
    ensures IsNodeAddress(op, inventory, namespace, e.cluster, e.nodeName, e.nodeAddress)
  {
    assert (e.cluster, e.nodeName) in addresses.pairs;
  }

  lemma NodesMean(op: Operator, inventory: Inventory, namespace: string, body: Measurement, addresses: NodeAddresses,
                  s: SessionSpec)
    requires HasEnds(body, addresses, s) && addresses.nodes == map[]
    requires AreNodeAddresses(op, inventory, namespace, addresses.pairs)
    ensures HasNodes(op, inventory, namespace, s)
  {
    var forth := s.direction == "sourceToDestination";
    EndMeans(op, inventory, namespace, if forth then body.source else body.destination, addresses, s.source);
    EndMeans(op, inventory, namespace, if forth then body.destination else body.source, addresses, s.destination);
  }

  lemma AllNodesMean(op: Operator, inventory: Inventory, namespace: string, body: Measurement, profile: Profile,
                     addresses: NodeAddresses, image: string, sessions: seq<Session>)
    requires AreSessionsOf(op.digest, body, profile, addresses, image, sessions) && addresses.nodes == map[]
    requires AreNodeAddresses(op, inventory, namespace, addresses.pairs)
    ensures HaveNodes(op, inventory, namespace, sessions)
  {
    forall s | s in sessions ensures HasNodes(op, inventory, namespace, s.spec) {
      assert IsSessionOf(op.digest, body, profile, addresses, image, s);
      NodesMean(op, inventory, namespace, body, addresses, s.spec);
    }
  }

  lemma ExpansionMeans(op: Operator, inventory: Inventory, body: Measurement, namespace: string, profile: Profile,
                       pairs: map<(string, string), string>, sessions: seq<Session>)
    requires NamesSeparated(op.digest, body.name)
    requires AddressesOf(op, inventory, namespace, [body.source, body.destination]) == Some(pairs)
    requires Expanded(op.digest, body, profile, NodeAddresses(pairs, map[]), op.defaultImage) == Success(sessions)
    ensures AreSessionsOf(op.digest, body, profile, NodeAddresses(pairs, map[]), op.defaultImage, sessions)
    ensures HaveNodes(op, inventory, namespace, sessions)
    ensures NamesDiffer(sessions) && AllLabelled(sessions, LabelValue(op.digest, body.name))
  {
    SessionsMean(op.digest, body, profile, NodeAddresses(pairs, map[]), op.defaultImage);
    ExpandedIsKept(op.digest, body, profile, NodeAddresses(pairs, map[]), op.defaultImage);
    AddressesMean(op, inventory, namespace, [body.source, body.destination]);
    AllNodesMean(op, inventory, namespace, body, profile, NodeAddresses(pairs, map[]), op.defaultImage, sessions);
  }

  lemma SessionsComeFrom(op: Operator, inventory: Inventory, body: Measurement, namespace: string,
                         sessions: seq<Session>)
    returns (stored: StoredProfile, pairs: map<(string, string), string>)
    requires SessionsOf(op, inventory, body, namespace) == Some(sessions)
    ensures body.profileRef in inventory.profiles && stored == inventory.profiles[body.profileRef]
    ensures AddressesOf(op, inventory, namespace, [body.source, body.destination]) == Some(pairs)
    ensures Expanded(op.digest, body, stored.profile, NodeAddresses(pairs, map[]), op.defaultImage) == Success(sessions)
    ensures WishOf(op, inventory, body, namespace) ==
            Some(WantedOf(sessions, namespace, LabelValue(op.digest, body.name), stored.resourceVersion))
  {
    stored := inventory.profiles[body.profileRef];
    pairs := AddressesOf(op, inventory, namespace, [body.source, body.destination]).value;
  }

  /** After a successful reconciliation the sessions under the measurement's label are exactly those
      it expands to, stamped with the version of its profile; their ends have the addresses of
      their nodes in their clusters. */
  lemma MeasurementIsHeld(op: Operator, inventory: Inventory, body: Measurement, namespace: string,
                          sessions: seq<Session>,
                          w: World, w': World)
    returns (stored: StoredProfile, pairs: map<(string, string), string>)
    requires NamesSeparated(op.digest, body.name) && SessionsOf(op, inventory, body, namespace) == Some(sessions)
    requires Reached(w', WantedGoal(WishOf(op, inventory, body, namespace).value, w))
    ensures body.profileRef in inventory.profiles && stored == inventory.profiles[body.profileRef]
    ensures HoldsExactly(w', namespace, sessions, stored.resourceVersion, LabelValue(op.digest, body.name))
    ensures AreSessionsOf(op.digest, body, stored.profile, NodeAddresses(pairs, map[]), op.defaultImage, sessions)
    ensures HaveNodes(op, inventory, namespace, sessions)
  {
    stored, pairs := SessionsComeFrom(op, inventory, body, namespace, sessions);
    ExpansionMeans(op, inventory, body, namespace, stored.profile, pairs, sessions);
    WantedIsHeld(sessions, namespace, LabelValue(op.digest, body.name), stored.resourceVersion, w, w');
  }
}
