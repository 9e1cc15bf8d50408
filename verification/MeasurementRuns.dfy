/** Measurements the operator expands: the naming scheme keeps their sessions apart, so they may
    be reconciled in either order. */
module MeasurementRuns {
  import opened Wrappers
  import opened Names
  import opened SessionNames
  import opened Sessions
  import opened Manifests
  import opened Kubernetes
  import opened SessionController
  import opened MeasurementController

  // ----- Names of two measurements -----

  /** Measurements with different label values contribute different text to session names. */
  lemma LabelsTellPrefixesApart(digest: Digest, m: string, m': string)
    requires LabelValue(digest, m) != LabelValue(digest, m')
    ensures NamePrefix(m) != NamePrefix(m')
  {
    if NamePrefix(m) == NamePrefix(m') {
      assert m == "" <==> m' == "";
      if m != "" {
        RawOne(m);
        RawOne(m');
        SameSuffix(Slug(m), "-", Slug(m'), "-");
        assert Raw([m]) == Raw([m']);
      }
    }
  }

  lemma SessionNamesDiffer(digest: Digest, m: string, mode: string, d: string, m': string, mode': string, d': string)
    requires LabelValue(digest, m) != LabelValue(digest, m') && SessionsSeparated(digest, m, m')
    requires IsNetworkMode(mode) && IsDirection(d) && IsNetworkMode(mode') && IsDirection(d')
    ensures SessionName(digest, m, mode, d) != SessionName(digest, m', mode', d')
  {
    LabelsTellPrefixesApart(digest, m, m');
    SessionNameInjective(digest, m, mode, d, m', mode', d');
  }

  // ----- What a measurement wants -----

  /** The name is that of a session of the measurement. */
  ghost predicate IsNameOf(digest: Digest, m: string, name: string) {
    exists mode, d :: IsNetworkMode(mode) && IsDirection(d) && name == SessionName(digest, m, mode, d)
  }

  lemma {:induction false} ContentHasSession(sessions: seq<Session>, trigger: string, name: string)
    requires name in ContentsOf(sessions, trigger)
    ensures exists s :: s in sessions && s.name == name
  {
    var front, last := sessions[..|sessions| - 1], sessions[|sessions| - 1];
    if last.name == name {
      assert last in sessions;
    } else {
      ContentHasSession(front, trigger, name);
      var s :| s in front && s.name == name;
      assert s in sessions;
    }
  }

  lemma PlannedIsNamed(digest: Digest, p: Plan, s: Session)
    requires IsExpanded(digest, p, s)
    ensures IsNameOf(digest, p.measurement, s.name)
  {
    assert s.name == SessionName(digest, p.measurement, s.spec.networkMode, s.spec.direction);
  }

  lemma ExpandedIsNamed(digest: Digest, m: Measurement, profile: Profile, addresses: NodeAddresses, image: string,
                        s: Session)
    requires Expanded(digest, m, profile, addresses, image).Success?
    requires s in Expanded(digest, m, profile, addresses, image).value
    ensures IsNameOf(digest, m.name, s.name)
  {
    PlanIsChecked(m, profile, addresses, image);
    PlanMeasurement(m, profile, addresses, image);
    var p := MakePlan(m, profile, addresses, image).value;
    ExpandedMember(digest, p, s);
    PlannedIsNamed(digest, p, s);
  }

  /** A measurement wants sessions by its own names only, under its own label, in its namespace. */
  ghost predicate IsWishOf(digest: Digest, m: string, namespace: string, wish: Wanted) {
    && wish.place == Place("", namespace) && wish.measurementLabel == LabelValue(digest, m)
    && forall name :: name in wish.contents ==> IsNameOf(digest, m, name)
  }

  lemma WishIsNamed(op: Operator, inventory: Inventory, body: Measurement, namespace: string)
    requires WishOf(op, inventory, body, namespace).Some?
    ensures IsWishOf(op.digest, body.name, namespace, WishOf(op, inventory, body, namespace).value)
  {
    var sessions := SessionsOf(op, inventory, body, namespace).value;
    var profile := inventory.profiles[body.profileRef];
    forall name | name in ContentsOf(sessions, profile.resourceVersion) ensures IsNameOf(op.digest, body.name, name) {
      ContentHasSession(sessions, profile.resourceVersion, name);
      var s :| s in sessions && s.name == name;
      var addresses := AddressesOf(op, inventory, namespace, [body.source, body.destination]).value;
      ExpandedIsNamed(op.digest, body, profile.profile, NodeAddresses(addresses, map[]), op.defaultImage, s);
    }
  }

  lemma WishIsValid(op: Operator, inventory: Inventory, body: Measurement, namespace: string)
    requires WishOf(op, inventory, body, namespace).Some? && NamesSeparated(op.digest, body.name)
    ensures WishOf(op, inventory, body, namespace).value.Valid()
  {
    var stored := inventory.profiles[body.profileRef];
    var addresses := AddressesOf(op, inventory, namespace, [body.source, body.destination]).value;
    ExpansionIsValid(op.digest, body, stored.profile, NodeAddresses(addresses, map[]), op.defaultImage,
                     namespace, stored.resourceVersion);
  }

  // ----- Measurements apart -----

  /** A session object stored under a name the measurement wants carries the measurement's label. */
  ghost predicate KeepsLabels(m: Wanted, w: World) {
    forall k :: m.IsWanted(k) && Exists(w, k) ==> m.IsListed(w, k)
  }

  /** Measurements with different label values want different sessions, and none is listed as the
      other's as long as the stored sessions carry the labels they were made with. */
  lemma WishesApart(digest: Digest, a: string, namespace: string, m: Wanted, b: string, namespace': string, n: Wanted,
                    w: World)
    requires IsWishOf(digest, a, namespace, m) && IsWishOf(digest, b, namespace', n)
    requires LabelValue(digest, a) != LabelValue(digest, b) && SessionsSeparated(digest, a, b)
    requires KeepsLabels(m, w) && KeepsLabels(n, w)
    ensures MeasurementsApart(m, n, w)
  {
    forall k | m.IsWanted(k) && n.IsWanted(k) ensures false {
      var mode, d :| IsNetworkMode(mode) && IsDirection(d) && k.name == SessionName(digest, a, mode, d);
      var mode', d' :| IsNetworkMode(mode') && IsDirection(d') && k.name == SessionName(digest, b, mode', d');
      SessionNamesDiffer(digest, a, mode, d, b, mode', d');
    }
  }

  /** Synchronising either, completely or not, keeps the stored sessions labelled. */
  lemma SyncKeepsLabels(m: Wanted, n: Wanted, w: World, w': World)
    requires m.Valid() && MeasurementsApart(m, n, w) && KeepsLabels(m, w) && KeepsLabels(n, w)
    requires Between(w, w', WantedGoal(m, w))
    ensures KeepsLabels(m, w') && KeepsLabels(n, w') && MeasurementsApart(m, n, w')
  {
    forall k | Exists(w', k)
      ensures m.IsWanted(k) ==> m.IsListed(w', k)
      ensures n.IsWanted(k) ==> n.IsListed(w', k)
    {
      assert At(w', k) == At(w, k) || At(w', k) == WantedGoal(m, w)(k);
    }
  }

  /** Any two measurements with different label values may be reconciled in either order. */
  lemma ExpandedMeasurementsCommute(op: Operator, inventory: Inventory, body: Measurement, namespace: string, m: Wanted,
                                    body': Measurement, namespace': string, n: Wanted,
                                    w: World, a: World, ab: World, b: World, ba: World)
    requires WishOf(op, inventory, body, namespace) == Some(m) && WishOf(op, inventory, body', namespace') == Some(n)
    requires NamesSeparated(op.digest, body.name) && NamesSeparated(op.digest, body'.name)
    requires KeepsLabels(m, w) && KeepsLabels(n, w)
    requires LabelValue(op.digest, body.name) != LabelValue(op.digest, body'.name)
    requires SessionsSeparated(op.digest, body.name, body'.name)
    requires Reached(a, WantedGoal(m, w)) && Reached(ab, WantedGoal(n, a))
    requires Reached(b, WantedGoal(n, w)) && Reached(ba, WantedGoal(m, b))
    ensures Same(ab, ba)
  {
    WishIsValid(op, inventory, body, namespace);
    WishIsValid(op, inventory, body', namespace');
    WishIsNamed(op, inventory, body, namespace);
    WishIsNamed(op, inventory, body', namespace');
    WishesApart(op.digest, body.name, namespace, m, body'.name, namespace', n, w);
    MeasurementsCommute(m, n, w, a, ab, b, ba);
  }
}
