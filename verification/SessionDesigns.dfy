/** Where the naming scheme meets the protocol: sessions with different names have objects
    apart, so everything proved of targets apart holds of them. */
module SessionDesigns {
  import opened Wrappers
  import opened Decimal
  import opened Names
  import opened SessionNames
  import opened ExporterConfig
  import opened Sessions
  import opened Manifests
  import opened Kubernetes
  import opened SessionTarget
  import opened SessionController
  import opened SessionProtocol

  // ----- What is asked of the digest -----

  /** The digest has no collision on the texts behind the workload names of two sessions. */
  ghost predicate RolesSeparated(digest: Digest, s: string, s': string) {
    forall suffix, suffix' | IsRole(suffix) && IsRole(suffix') ::
      NoCollision(digest, Raw([s, suffix]), Raw([s', suffix']))
  }

  /** Nor on the two texts behind their Job names, which do not clash either. */
  predicate JobsSeparated(digest: Digest, s: Session, s': Session) {
    var g, g' := GenerationText(s), GenerationText(s');
    && NoCollision(digest, Raw([s.name, "client", g]), Raw([s'.name, "client", g']))
    && !JobNamesClash(digest, s.name, g, s'.name, g') && !JobNamesClash(digest, s'.name, g', s.name, g)
  }

  lemma GenerationIsDecimal(s: Session)
    ensures IsDecimal(GenerationText(s))
  {
    if s.generation.Some? { PrintNatDigits(s.generation.value); }
  }

  /** Between generations of at most seven digits no clash is possible. */
  lemma OrdinaryGenerationsAreSeparated(digest: Digest, s: Session, s': Session)
    requires s.generation.Some? ==> s.generation.value < 10_000_000
    requires s'.generation.Some? ==> s'.generation.value < 10_000_000
    requires NoCollision(digest, Raw([s.name, "client", GenerationText(s)]),
                         Raw([s'.name, "client", GenerationText(s')]))
    ensures JobsSeparated(digest, s, s')
  {
    var g, g' := GenerationText(s), GenerationText(s');
    GenerationIsShort(s);
    GenerationIsShort(s');
    OrdinaryGenerationsNeverClash(digest, s.name, g, s'.name, g');
    OrdinaryGenerationsNeverClash(digest, s'.name, g', s.name, g);
  }

  lemma GenerationIsShort(s: Session)
    requires s.generation.Some? ==> s.generation.value < 10_000_000
    ensures |GenerationText(s)| < DIGEST_LENGTH
  {
    if s.generation.Some? { ShortNumber(s.generation.value); }
  }

  // ----- Names of one session and of two -----

  lemma DesignIsSound(digest: Digest, s: Session)
    requires s.name != "" && SessionKey in s.labels && RolesSeparated(digest, s.name, s.name)
    ensures IsSound(DesignOf(digest, s))
  {
    ServicesDiffer(digest, s.name, "headless", "service");
  }

  lemma ServicesDiffer(digest: Digest, name: string, headless: string, service: string)
    requires name != "" && IsRole(headless) && IsRole(service) && headless != service
    requires RolesSeparated(digest, name, name)
    ensures ResourceName(digest, name, headless) != ResourceName(digest, name, service)
  {
    ResourceNameInjective(digest, name, headless, name, service);
  }

  lemma ResourcesDiffer(digest: Digest, s: string, s': string, suffix: string, suffix': string)
    requires s != "" && s' != "" && Slug(s) != Slug(s') && IsRole(suffix) && IsRole(suffix')
    requires RolesSeparated(digest, s, s')
    ensures ResourceName(digest, s, suffix) != ResourceName(digest, s', suffix')
  {
    ResourceNameInjective(digest, s, suffix, s', suffix');
  }

  lemma JobsDiffer(digest: Digest, s: Session, s': Session)
    requires s.name != "" && s'.name != "" && Slug(s.name) != Slug(s'.name) && JobsSeparated(digest, s, s')
    ensures ClientJobName(digest, s) != ClientJobName(digest, s')
  {
    GenerationIsDecimal(s);
    GenerationIsDecimal(s');
    JobNamesAgree(digest, s.name, GenerationText(s), s'.name, GenerationText(s'));
  }

  /** A session's Job has another name in every generation. */
  lemma GenerationsDiffer(digest: Digest, s: Session, s': Session)
    requires s.name != "" && s'.name == s.name
    requires s.generation.Some? && s'.generation.Some? && s.generation != s'.generation
    requires JobsSeparated(digest, s, s')
    ensures ClientJobName(digest, s) != ClientJobName(digest, s')
  {
    GenerationIsDecimal(s);
    GenerationIsDecimal(s');
    JobNamesAgree(digest, s.name, GenerationText(s), s'.name, GenerationText(s'));
    PrintNatInjective(s.generation.value, s'.generation.value);
  }

  /** The names and the label of a design, given the suffixes of the roles. */
  ghost predicate IsNamed(d: Design, digest: Digest, s: Session, headless: string, service: string, server: string,
                          client: string) {
    && IsRole(headless) && IsRole(service) && IsRole(server) && IsRole(client)
    && d.headlessName == ResourceName(digest, s.name, headless)
    && d.serviceName == ResourceName(digest, s.name, service)
    && d.statefulSetName == ResourceName(digest, s.name, server)
    && d.deploymentName == ResourceName(digest, s.name, client)
    && d.jobName == ClientJobName(digest, s)
    && d.sessionLabel == LabelOf(s)
  }

  lemma DesignIsNamed(digest: Digest, s: Session)
    ensures IsNamed(DesignOf(digest, s), digest, s, "headless", "service", "server", "client")
  {
  }

  /** The names and labels of two designs are pairwise different. */
  predicate DesignsDiffer(d: Design, d': Design) {
    && d.headlessName != d'.headlessName && d.headlessName != d'.serviceName
    && d.serviceName != d'.headlessName && d.serviceName != d'.serviceName
    && d.statefulSetName != d'.statefulSetName && d.deploymentName != d'.deploymentName
    && d.jobName != d'.jobName && d.sessionLabel != d'.sessionLabel
  }

  lemma NamedDesignsDiffer(digest: Digest, s: Session, d: Design, s': Session, d': Design,
                           h: string, v: string, x: string, c: string)
    requires IsNamed(d, digest, s, h, v, x, c) && IsNamed(d', digest, s', h, v, x, c)
    requires s.name != "" && s'.name != "" && Slug(s.name) != Slug(s'.name) && LabelOf(s) != LabelOf(s')
    requires RolesSeparated(digest, s.name, s'.name) && JobsSeparated(digest, s, s')
    ensures DesignsDiffer(d, d')
  {
    JobsDiffer(digest, s, s');
    ResourcesDiffer(digest, s.name, s'.name, h, h);
    ResourcesDiffer(digest, s.name, s'.name, h, v);
    ResourcesDiffer(digest, s.name, s'.name, v, h);
    ResourcesDiffer(digest, s.name, s'.name, v, v);
    ResourcesDiffer(digest, s.name, s'.name, x, x);
    ResourcesDiffer(digest, s.name, s'.name, c, c);
  }

  lemma DesignsApart(digest: Digest, s: Session, s': Session)
    requires s.name != "" && s'.name != "" && Slug(s.name) != Slug(s'.name) && LabelOf(s) != LabelOf(s')
    requires RolesSeparated(digest, s.name, s'.name) && JobsSeparated(digest, s, s')
    ensures DesignsDiffer(DesignOf(digest, s), DesignOf(digest, s'))
  {
    DesignIsNamed(digest, s);
    DesignIsNamed(digest, s');
    NamedDesignsDiffer(digest, s, DesignOf(digest, s), s', DesignOf(digest, s'), "headless", "service", "server",
                       "client");
  }

  lemma TargetsApart(op: Operator, site: Site, s: Session, site': Site, s': Session)
    requires DesignsDiffer(op.design(s), op.design(s'))
    ensures Apart(TargetOf(op, site, s), TargetOf(op, site', s'))
  {
    var t, u := TargetOf(op, site, s), TargetOf(op, site', s');
    assert t.headless != u.headless && t.headless != u.service && t.service != u.headless && t.service != u.service;
  }

  /** The digest has no collision on the texts behind the workload names of either session and of
      both, and their Job names do not clash. */
  ghost predicate Separated(digest: Digest, s: Session, s': Session) {
    && RolesSeparated(digest, s.name, s'.name) && RolesSeparated(digest, s.name, s.name)
    && RolesSeparated(digest, s'.name, s'.name) && JobsSeparated(digest, s, s')
  }

  /** Two sessions the naming scheme keeps apart. */
  ghost predicate Distinguished(digest: Digest, s: Session, s': Session) {
    && s.name != "" && s'.name != "" && Slug(s.name) != Slug(s'.name)
    && SessionKey in s.labels && SessionKey in s'.labels && s.labels[SessionKey] != s'.labels[SessionKey]
    && Separated(digest, s, s')
  }

  /** Distinguished sessions have valid targets apart, wherever their clusters are. */
  lemma SessionsApart(op: Operator, digest: Digest, s: Session, s': Session)
    requires op.digest == digest && op.design(s) == DesignOf(digest, s) && op.design(s') == DesignOf(digest, s')
    requires Distinguished(digest, s, s') && TargetFor(op, s).Some? && TargetFor(op, s').Some?
    ensures TargetFor(op, s).value.Valid() && TargetFor(op, s').value.Valid()
    ensures Apart(TargetFor(op, s).value, TargetFor(op, s').value)
  {
    DesignIsSound(digest, s);
    DesignIsSound(digest, s');
    DesignsApart(digest, s, s');
    SoundDesignsApart(op, s, s', op.design(s), op.design(s'));
  }

  lemma SoundDesignsApart(op: Operator, s: Session, s': Session, d: Design, d': Design)
    requires d == op.design(s) && d' == op.design(s') && IsSound(d) && IsSound(d') && DesignsDiffer(d, d')
    requires TargetFor(op, s).Some? && TargetFor(op, s').Some?
    ensures TargetFor(op, s).value.Valid() && TargetFor(op, s').value.Valid()
    ensures Apart(TargetFor(op, s).value, TargetFor(op, s').value)
  {
    TargetIsValid(op, SiteOf(op, s).value, s);
    TargetIsValid(op, SiteOf(op, s').value, s');
    TargetsApart(op, SiteOf(op, s).value, s, SiteOf(op, s').value, s');
  }

  lemma SameStatus(op: Operator, site: Site, body: Session, w: World, w': World)
    requires Same(w, w')
    ensures StatusOf(op, site, body, w) == StatusOf(op, site, body, w')
  {
    var t := TargetOf(op, site, body);
    assert At(w, t.statefulSet) == At(w', t.statefulSet) && At(w, t.job) == At(w', t.job);
    assert At(w, t.deployment) == At(w', t.deployment);
  }

  /** With nothing else happening, a second reconciliation changes nothing and reports the same
      status. */
  lemma SecondCallSameStatus(op: Operator, site: Site, body: Session, w: World, w': World, w'': World)
    requires IsSound(op.design(body))
    requires Reached(w', Goal(TargetOf(op, site, body), w)) && Reached(w'', Goal(TargetOf(op, site, body), w'))
    ensures Same(w', w'') && StatusOf(op, site, body, w') == StatusOf(op, site, body, w'')
  {
    TargetIsValid(op, site, body);
    ReconciliationIdempotent(TargetOf(op, site, body), w, w', w'');
    SameStatus(op, site, body, w', w'');
  }

  /** Distinguished sessions may be reconciled in either order. */
  lemma DistinctSessionsCommute(op: Operator, digest: Digest, s: Session, s': Session, t: Target, t': Target,
                                w: World, a: World, ab: World, b: World, ba: World)
    requires op.digest == digest && op.design(s) == DesignOf(digest, s) && op.design(s') == DesignOf(digest, s')
    requires Distinguished(digest, s, s') && TargetFor(op, s) == Some(t) && TargetFor(op, s') == Some(t')
    requires Labelled(t, w) && Labelled(t', w)
    requires Reached(a, Goal(t, w)) && Reached(ab, Goal(t', a))
    requires Reached(b, Goal(t', w)) && Reached(ba, Goal(t, b))
    ensures Same(ab, ba)
  {
    SessionsApart(op, digest, s, s');
    ReconciliationsCommute(t, t', w, a, ab, b, ba);
  }

  /** Sessions the operator expanded from any measurements are apart as soon as their names
      differ: names are slugs already, and different names come with different labels. */
  lemma ExpandedSessionsApart(digest: Digest, p: Plan, s: Session, p': Plan, s': Session)
    requires p.measurement != "" && p'.measurement != ""
    requires IsExpanded(digest, p, s) && IsExpanded(digest, p', s') && s.name != s'.name
    requires NoCollision(digest,
      Raw([SessionNames.SessionId(p.measurement, s.spec.networkMode, s.spec.direction)]),
      Raw([SessionNames.SessionId(p'.measurement, s'.spec.networkMode, s'.spec.direction)]))
    ensures s.name != "" && s'.name != "" && Slug(s.name) != Slug(s'.name)
    ensures SessionKey in s.labels && SessionKey in s'.labels && s.labels[SessionKey] != s'.labels[SessionKey]
  {
    ExpandedNameIsSlug(digest, p, s);
    ExpandedNameIsSlug(digest, p', s');
    DistinctNamesHaveDistinctLabels(digest, p.measurement, s.spec.networkMode, s.spec.direction,
                                    p'.measurement, s'.spec.networkMode, s'.spec.direction);
  }

  lemma ExpandedNameIsSlug(digest: Digest, p: Plan, s: Session)
    requires p.measurement != "" && IsExpanded(digest, p, s)
    ensures s.name != "" && Slug(s.name) == s.name
    ensures s.name == SessionName(digest, p.measurement, s.spec.networkMode, s.spec.direction)
    ensures SessionKey in s.labels
    ensures s.labels[SessionKey] == SessionLabel(digest, p.measurement, s.spec.networkMode, s.spec.direction)
  {
    PlannedName(digest, p, s.spec.networkMode, s.spec.direction);
    NameIsSlug(digest, p.measurement, s.spec.networkMode, s.spec.direction);
  }

  lemma PlannedName(digest: Digest, p: Plan, mode: string, direction: string)
    ensures var s := PlannedSession(digest, p, mode, direction);
      && s.name == SessionName(digest, p.measurement, mode, direction)
      && SessionKey in s.labels && s.labels[SessionKey] == SessionLabel(digest, p.measurement, mode, direction)
  {
  }

  lemma NameIsSlug(digest: Digest, m: string, mode: string, direction: string)
    requires m != ""
    ensures SessionName(digest, m, mode, direction) != ""
    ensures Slug(SessionName(digest, m, mode, direction)) == SessionName(digest, m, mode, direction)
  {
    StableNameIsHostLabel(digest, [m, mode, direction], LABEL_MAX_LENGTH);
    SlugFixed(SessionName(digest, m, mode, direction));
  }
}
