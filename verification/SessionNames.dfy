/** Names and labels of measurement sessions and of the Kubernetes objects made for them, and
    the proof that they are injective. */
module SessionNames {
  import opened Decimal
  import opened Names

  const SOURCE_TO_DESTINATION := "sourceToDestination"
  const DESTINATION_TO_SOURCE := "destinationToSource"

  predicate IsDirection(direction: string) {
    direction == SOURCE_TO_DESTINATION || direction == DESTINATION_TO_SOURCE
  }

  predicate IsNetworkMode(mode: string) {
    mode == "host" || mode == "pod" || mode == "service"
  }

  function SessionId(measurement: string, mode: string, direction: string): string {
    measurement + ":" + mode + ":" + direction
  }

  function SessionName(digest: Digest, measurement: string, mode: string, direction: string): string {
    StableName(digest, [measurement, mode, direction], LABEL_MAX_LENGTH)
  }

  function SessionLabel(digest: Digest, measurement: string, mode: string, direction: string): string {
    LabelValue(digest, SessionId(measurement, mode, direction))
  }

  function ResourceName(digest: Digest, session: string, suffix: string): string {
    StableName(digest, [session, suffix], RESOURCE_NAME_MAX_LENGTH)
  }

  function JobName(digest: Digest, session: string, generation: string): string {
    StableName(digest, [session, "client", generation], RESOURCE_NAME_MAX_LENGTH)
  }

  // ----- The texts behind the names -----

  lemma Assoc(a: string, b: string, c: string)
    ensures a + (b + c) == a + b + c
  {
  }

  lemma {:induction false} KeptAppend(a: string, b: string)
    ensures Kept(a + b) == Kept(a) + Kept(b)
  {
    if a == "" {
      assert a + b == b;
    } else {
      KeptAppend(a[1..], b);
      assert (a + b)[1..] == a[1..] + b;
      Assoc(KeptChar(a[0]), Kept(a[1..]), Kept(b));
    }
  }

  lemma {:induction false} LowerAppend(a: string, b: string)
    ensures Lower(a + b) == Lower(a) + Lower(b)
  {
    if a == "" {
      assert a + b == b;
    } else {
      var ab := a + b;
      calc {
        Lower(ab);
        LowerChar(a[0]) + Lower(ab[1..]);
        { assert ab[1..] == a[1..] + b; LowerAppend(a[1..], b); }
        LowerChar(a[0]) + (Lower(a[1..]) + Lower(b));
        { Assoc(LowerChar(a[0]), Lower(a[1..]), Lower(b)); }
        Lower(a) + Lower(b);
      }
    }
  }

  lemma KeptLowerAppend(a: string, b: string)
    ensures Kept(Lower(a + b)) == Kept(Lower(a)) + Kept(Lower(b))
  {
    LowerAppend(a, b);
    KeptAppend(Lower(a), Lower(b));
  }

  function DirectionSlug(direction: string): string {
    if direction == SOURCE_TO_DESTINATION then "sourcetodestination" else "destinationtosource"
  }

  lemma KeptUpperLetter(c: char)
    requires 'A' <= c <= 'Z'
    ensures Kept(Lower([c])) == [(c as int + 32) as char]
  {
  }

  lemma KeptCamelCase(first: string, letter: char, second: string)
    requires AllSlugChars(first) && 'A' <= letter <= 'Z' && AllSlugChars(second)
    ensures Kept(Lower(first + [letter] + second)) == first + [(letter as int + 32) as char] + second
  {
    KeptLowerFixed(first);
    KeptLowerFixed(second);
    KeptUpperLetter(letter);
    KeptLowerAppend(first, [letter]);
    KeptLowerAppend(first + [letter], second);
  }

  lemma KeptTwoHumps(s: string, t: string, a: string, x: char, b: string, y: char, c: string)
    requires AllSlugChars(a) && 'A' <= x <= 'Z' && AllSlugChars(b) && 'A' <= y <= 'Z' && AllSlugChars(c)
    requires s == (a + [x] + b) + ([y] + c)
    requires t == (a + [(x as int + 32) as char] + b) + ([(y as int + 32) as char] + c)
    ensures Kept(Lower(s)) == t
  {
    KeptCamelCase(a, x, b);
    KeptLowerFixed(c);
    KeptUpperLetter(y);
    KeptLowerAppend([y], c);
    KeptLowerAppend(a + [x] + b, [y] + c);
  }

  lemma KeptForward(s: string, t: string)
    requires s == SOURCE_TO_DESTINATION && t == "sourcetodestination"
    ensures Kept(Lower(s)) == t
  {
    KeptTwoHumps(s, t, "source", 'T', "o", 'D', "estination");
  }

  lemma KeptBackward(s: string, t: string)
    requires s == DESTINATION_TO_SOURCE && t == "destinationtosource"
    ensures Kept(Lower(s)) == t
  {
    KeptTwoHumps(s, t, "destination", 'T', "o", 'S', "ource");
  }

  lemma KeptDirection(direction: string)
    requires IsDirection(direction)
    ensures Kept(Lower(direction)) == DirectionSlug(direction)
  {
    if direction == SOURCE_TO_DESTINATION {
      KeptForward(direction, DirectionSlug(direction));
    } else {
      KeptBackward(direction, DirectionSlug(direction));
    }
  }

  lemma DirectionSlugIsHostLabel(direction: string)
    ensures IsHostLabel(DirectionSlug(direction), 19)
  {
  }

  lemma SlugOfDirection(direction: string)
    requires IsDirection(direction)
    ensures Slug(direction) == DirectionSlug(direction)
  {
    KeptDirection(direction);
    DirectionSlugIsHostLabel(direction);
    var s := DirectionSlug(direction);
    assert StripRight(StripLeft(s)) == s;
  }

  /** What a measurement contributes to the names of its sessions. */
  function NamePrefix(measurement: string): string {
    if measurement == "" then "" else Slug(measurement) + "-"
  }

  /** The joined text of two parts, and of three. */
  lemma RawOne(a: string)
    requires a != ""
    ensures Raw([a]) == Slug(a) && Raw([a]) != ""
  {
  }

  lemma RawTwo(a: string, b: string)
    requires b != ""
    ensures Raw([a, b]) == NamePrefix(a) + Slug(b) && Raw([a, b]) != ""
  {
    RawOne(b);
    assert [a, b][1..] == [b];
  }

  lemma RawThree(a: string, b: string, c: string)
    requires b != "" && c != ""
    ensures Raw([a, b, c]) == NamePrefix(a) + Slug(b) + "-" + Slug(c)
  {
    RawTwo(b, c);
    assert [a, b, c][1..] == [b, c];
    Assoc(Slug(a), "-", Raw([b, c]));
    Assoc(NamePrefix(a), NamePrefix(b), Slug(c));
    Assoc(NamePrefix(a), Slug(b), "-");
  }

  lemma ModeIsHostLabel(mode: string)
    requires IsNetworkMode(mode)
    ensures IsHostLabel(mode, 7) && IsHostLabel(mode, |mode|)
  {
  }

  lemma SessionRaw(measurement: string, mode: string, direction: string)
    requires IsNetworkMode(mode) && IsDirection(direction)
    ensures Raw([measurement, mode, direction]) == NamePrefix(measurement) + mode + "-" + DirectionSlug(direction)
  {
    SlugOfDirection(direction);
    ModeIsHostLabel(mode);
    SlugFixed(mode);
    RawThree(measurement, mode, direction);
  }

  /** What a measurement contributes to the labels of its sessions: leading dashes go, trailing
      ones stay, because more text follows. */
  function LabelPrefix(measurement: string): string {
    StripLeft(Kept(Lower(measurement)))
  }

  lemma {:induction false} StripLeftAppend(a: string, b: string)
    requires b != "" && b[0] != '-'
    ensures StripLeft(a + b) == StripLeft(a) + b
  {
    if a == "" {
      assert a + b == b;
    } else if a[0] == '-' {
      StripLeftAppend(a[1..], b);
      assert (a + b)[1..] == a[1..] + b;
    }
  }

  lemma SessionLabelRaw(measurement: string, mode: string, direction: string)
    requires IsNetworkMode(mode) && IsDirection(direction)
    ensures Raw([SessionId(measurement, mode, direction)]) ==
            LabelPrefix(measurement) + mode + DirectionSlug(direction)
  {
    var kept, tail := Kept(Lower(measurement)), mode + DirectionSlug(direction);
    KeptLowerId(measurement, mode, direction);
    DirectionSlugIsHostLabel(direction);
    ModeIsHostLabel(mode);
    SlugOfTail(SessionId(measurement, mode, direction), kept, tail);
    RawOne(SessionId(measurement, mode, direction));
    Assoc(LabelPrefix(measurement), mode, DirectionSlug(direction));
  }

  lemma SlugOfTail(s: string, kept: string, tail: string)
    requires Kept(Lower(s)) == kept + tail
    requires tail != "" && tail[0] != '-' && tail[|tail| - 1] != '-'
    ensures Slug(s) == StripLeft(kept) + tail
  {
    StripLeftAppend(kept, tail);
  }

  /** The separators leave nothing behind. */
  lemma KeptLowerId(measurement: string, mode: string, direction: string)
    requires IsNetworkMode(mode) && IsDirection(direction)
    ensures Kept(Lower(SessionId(measurement, mode, direction))) ==
            Kept(Lower(measurement)) + (mode + DirectionSlug(direction))
  {
    KeptColon(measurement, mode);
    KeptColon(measurement + ":" + mode, direction);
    ModeIsHostLabel(mode);
    KeptLowerFixed(mode);
    KeptDirection(direction);
    Assoc(Kept(Lower(measurement)), mode, DirectionSlug(direction));
  }

  lemma KeptColon(a: string, b: string)
    ensures Kept(Lower(a + ":" + b)) == Kept(Lower(a)) + Kept(Lower(b))
  {
    KeptAround(a, ":", b);
  }

  lemma KeptAround(a: string, separator: string, b: string)
    requires separator == ":"
    ensures Kept(Lower(a + separator + b)) == Kept(Lower(a)) + Kept(Lower(b))
  {
    KeptNothing(separator);
    KeptLowerAppend(a, separator);
    KeptLowerAppend(a + separator, b);
  }

  lemma KeptNothing(separator: string)
    requires separator == ":"
    ensures Kept(Lower(separator)) == ""
  {
  }

  // ----- Suffix codes -----

  lemma SameSuffix(a: string, x: string, b: string, y: string)
    requires |x| == |y|
    ensures a + x == b + y <==> a == b && x == y
  {
    if a + x == b + y {
      assert (a + x)[..|a|] == a && (b + y)[..|b|] == b;
      assert (a + x)[|a|..] == x && (b + y)[|b|..] == y;
    }
  }

  /** Network modes end in different letters, so a mode can be read off the end of a text. */
  lemma ModeSuffix(a: string, mode: string, b: string, mode': string)
    requires IsNetworkMode(mode) && IsNetworkMode(mode')
    ensures a + mode == b + mode' <==> a == b && mode == mode'
  {
    if a + mode == b + mode' {
      assert (a + mode)[|a + mode| - 1] == mode[|mode| - 1];
      assert (b + mode')[|b + mode'| - 1] == mode'[|mode'| - 1];
      SameSuffix(a, mode, b, mode');
    }
  }

  lemma DirectionIsNoDigest(a: string, direction: string)
    requires IsDirection(direction)
    ensures !EndsLikeDigest(a + DirectionSlug(direction))
  {
  }

  // ----- Session names and labels identify sessions -----

  /** Two sessions share a name exactly when measurement slug, mode and direction agree. */
  lemma SessionNameInjective(digest: Digest, m: string, mode: string, d: string,
                             m': string, mode': string, d': string)
    requires IsNetworkMode(mode) && IsDirection(d) && IsNetworkMode(mode') && IsDirection(d')
    requires NoCollision(digest, Raw([m, mode, d]), Raw([m', mode', d']))
    ensures SessionName(digest, m, mode, d) == SessionName(digest, m', mode', d') <==>
            NamePrefix(m) == NamePrefix(m') && mode == mode' && d == d'
  {
    SessionRaw(m, mode, d);
    SessionRaw(m', mode', d');
    DirectionIsNoDigest(NamePrefix(m) + mode + "-", d);
    DirectionIsNoDigest(NamePrefix(m') + mode' + "-", d');
    BoundedInjective(digest, Raw([m, mode, d]), Raw([m', mode', d']), LABEL_MAX_LENGTH);
    SameSuffix(NamePrefix(m) + mode + "-", DirectionSlug(d), NamePrefix(m') + mode' + "-", DirectionSlug(d'));
    SameSuffix(NamePrefix(m) + mode, "-", NamePrefix(m') + mode', "-");
    ModeSuffix(NamePrefix(m), mode, NamePrefix(m'), mode');
    assert DirectionSlug(d) == DirectionSlug(d') <==> d == d' by {
      assert "sourcetodestination"[0] != "destinationtosource"[0];
    }
  }

  /** The session label is uniquely decodable although the separators of the identifier vanish
      from it. */
  lemma SessionLabelInjective(digest: Digest, m: string, mode: string, d: string,
                              m': string, mode': string, d': string)
    requires IsNetworkMode(mode) && IsDirection(d) && IsNetworkMode(mode') && IsDirection(d')
    requires NoCollision(digest, Raw([SessionId(m, mode, d)]), Raw([SessionId(m', mode', d')]))
    ensures SessionLabel(digest, m, mode, d) == SessionLabel(digest, m', mode', d') <==>
            LabelPrefix(m) == LabelPrefix(m') && mode == mode' && d == d'
  {
    SessionLabelRaw(m, mode, d);
    SessionLabelRaw(m', mode', d');
    DirectionIsNoDigest(LabelPrefix(m) + mode, d);
    DirectionIsNoDigest(LabelPrefix(m') + mode', d');
    BoundedInjective(digest, Raw([SessionId(m, mode, d)]), Raw([SessionId(m', mode', d')]), LABEL_MAX_LENGTH);
    SameSuffix(LabelPrefix(m) + mode, DirectionSlug(d), LabelPrefix(m') + mode', DirectionSlug(d'));
    ModeSuffix(LabelPrefix(m), mode, LabelPrefix(m'), mode');
    assert DirectionSlug(d) == DirectionSlug(d') <==> d == d' by {
      assert "sourcetodestination"[0] != "destinationtosource"[0];
    }
  }

  /** Sessions with different names have different labels: a label determines all that the name
      was made from. */
  lemma DistinctNamesHaveDistinctLabels(digest: Digest, m: string, mode: string, d: string,
                                        m': string, mode': string, d': string)
    requires m != "" && m' != ""
    requires IsNetworkMode(mode) && IsDirection(d) && IsNetworkMode(mode') && IsDirection(d')
    requires NoCollision(digest, Raw([SessionId(m, mode, d)]), Raw([SessionId(m', mode', d')]))
    requires SessionName(digest, m, mode, d) != SessionName(digest, m', mode', d')
    ensures SessionLabel(digest, m, mode, d) != SessionLabel(digest, m', mode', d')
  {
    SessionLabelInjective(digest, m, mode, d, m', mode', d');
    if LabelPrefix(m) == LabelPrefix(m') && mode == mode' && d == d' {
      SameRaw(m, m', mode, d);
    }
  }

  lemma SameRaw(m: string, m': string, mode: string, d: string)
    requires m != "" && m' != "" && LabelPrefix(m) == LabelPrefix(m')
    requires IsNetworkMode(mode) && IsDirection(d)
    ensures Raw([m, mode, d]) == Raw([m', mode, d])
  {
  }

  // ----- Names of workloads -----

  /** The suffixes the operator gives to Services, StatefulSets and Deployments. */
  predicate IsRole(suffix: string) {
    suffix == "headless" || suffix == "service" || suffix == "server" || suffix == "client"
  }

  lemma ResourceRaw(session: string, suffix: string)
    requires session != "" && IsRole(suffix)
    ensures Raw([session, suffix]) == Slug(session) + "-" + suffix
    ensures !EndsLikeDigest(Raw([session, suffix]))
  {
    SlugFixed(suffix);
    RawTwo(session, suffix);
    var raw := Raw([session, suffix]);
    var tail := raw[|raw| - DIGEST_LENGTH..];
    if suffix == "headless" { assert tail[0] == 'h'; }
    else if suffix == "service" { assert tail[0] == '-'; }
    else { assert tail[1] == '-'; }
  }

  /** Workload names tell sessions and roles apart and fit the limit, truncated or not. */
  lemma ResourceNameInjective(digest: Digest, s: string, suffix: string, s': string, suffix': string)
    requires s != "" && s' != "" && IsRole(suffix) && IsRole(suffix')
    requires NoCollision(digest, Raw([s, suffix]), Raw([s', suffix']))
    ensures ResourceName(digest, s, suffix) == ResourceName(digest, s', suffix') <==>
            Slug(s) == Slug(s') && suffix == suffix'
    ensures IsHostLabel(ResourceName(digest, s, suffix), RESOURCE_NAME_MAX_LENGTH)
  {
    ResourceRaw(s, suffix);
    ResourceRaw(s', suffix');
    BoundedInjective(digest, Raw([s, suffix]), Raw([s', suffix']), RESOURCE_NAME_MAX_LENGTH);
    ResourceNameIsHostLabel(digest, s, suffix);
    RoleSuffix(Slug(s), suffix, Slug(s'), suffix');
  }

  lemma ResourceNameIsHostLabel(digest: Digest, s: string, suffix: string)
    requires s != "" && IsRole(suffix)
    ensures IsHostLabel(ResourceName(digest, s, suffix), RESOURCE_NAME_MAX_LENGTH)
  {
    StableNameIsHostLabel(digest, [s, suffix], RESOURCE_NAME_MAX_LENGTH);
  }

  /** Roles end in different letters. */
  lemma RoleSuffix(a: string, suffix: string, b: string, suffix': string)
    requires IsRole(suffix) && IsRole(suffix')
    ensures a + "-" + suffix == b + "-" + suffix' <==> a == b && suffix == suffix'
  {
    var x, y := a + "-" + suffix, b + "-" + suffix';
    if x == y {
      assert x[|x| - 1] == suffix[|suffix| - 1] && y[|y| - 1] == suffix'[|suffix'| - 1];
      SameSuffix(a + "-", suffix, b + "-", suffix');
      SameSuffix(a, "-", b, "-");
    }
  }

  lemma ThreePartRaw(a: string, b: string, c: string)
    requires a != "" && IsHostLabel(b, |b|) && IsHostLabel(c, |c|)
    ensures Raw([a, b, c]) == Slug(a) + ("-" + b) + "-" + c
  {
    SlugFixed(b);
    SlugFixed(c);
    RawThree(a, b, c);
    Assoc(Slug(a), "-", b);
  }

  lemma ClientPart(session: string, client: string, generation: string)
    requires session != "" && IsDecimal(generation) && client == "client"
    ensures Raw([session, client, generation]) == Slug(session) + "-client" + "-" + generation
  {
    ThreePartRaw(session, client, generation);
    assert "-" + client == "-client";
  }

  lemma GenerationTail(session: string, generation: string, raw: string)
    requires IsDecimal(generation) && raw == Slug(session) + "-client" + "-" + generation
    ensures EndsLikeDigest(raw) <==> |generation| == DIGEST_LENGTH
  {
    var front := Slug(session) + "-client";
    assert |front| >= DIGEST_LENGTH by { SlugIsHostLabel(session); }
    DecimalTail(front, generation);
  }

  lemma JobRaw(session: string, generation: string)
    requires session != "" && IsDecimal(generation)
    ensures Raw([session, "client", generation]) == Slug(session) + "-client" + "-" + generation
    ensures EndsLikeDigest(Raw([session, "client", generation])) <==> |generation| == DIGEST_LENGTH
  {
    ClientPart(session, "client", generation);
    GenerationTail(session, generation, Raw([session, "client", generation]));
  }

  lemma DecimalTail(a: string, g: string)
    requires IsDecimal(g) && |a| >= DIGEST_LENGTH
    ensures EndsLikeDigest(a + "-" + g) <==> |g| == DIGEST_LENGTH
  {
    var s := a + "-" + g;
    var tail := s[|s| - DIGEST_LENGTH..];
    if |g| < DIGEST_LENGTH {
      assert tail[DIGEST_LENGTH - |g| - 1] == '-';
    } else if |g| == DIGEST_LENGTH {
      assert tail == g;
    } else {
      assert s[|s| - DIGEST_LENGTH - 1] == g[|g| - DIGEST_LENGTH - 1];
    }
  }

  lemma LastDash(a: string, g: string, b: string, g': string)
    requires IsDecimal(g) && IsDecimal(g')
    requires a + "-" + g == b + "-" + g'
    ensures a == b && g == g'
  {
    var s := a + "-" + g;
    assert s[|a|] == '-' && s[|b|] == '-';
    assert forall i :: |a| < i < |s| ==> s[i] == g[i - |a| - 1];
    assert forall i :: |b| < i < |s| ==> s[i] == g'[i - |b| - 1];
    assert |a| == |b|;
    SameSuffix(a + "-", g, b + "-", g');
    SameSuffix(a, "-", b, "-");
  }

  /** Job names tell sessions and generations apart: always between two truncated or two
      untruncated names, and also across, unless an untruncated name ends in eight digits. */
  lemma JobNameInjective(digest: Digest, s: string, g: string, s': string, g': string)
    requires s != "" && s' != "" && IsDecimal(g) && IsDecimal(g')
    requires NoCollision(digest, Raw([s, "client", g]), Raw([s', "client", g']))
    requires
      || (|g| != DIGEST_LENGTH && |g'| != DIGEST_LENGTH)
      || (|Raw([s, "client", g])| <= RESOURCE_NAME_MAX_LENGTH <==>
          |Raw([s', "client", g'])| <= RESOURCE_NAME_MAX_LENGTH)
    ensures JobName(digest, s, g) == JobName(digest, s', g') <==> Slug(s) == Slug(s') && g == g'
    ensures IsHostLabel(JobName(digest, s, g), RESOURCE_NAME_MAX_LENGTH)
  {
    JobRaw(s, g);
    JobRaw(s', g');
    var a, b := Raw([s, "client", g]), Raw([s', "client", g']);
    StableNameIsHostLabel(digest, [s, "client", g], RESOURCE_NAME_MAX_LENGTH);
    var max := RESOURCE_NAME_MAX_LENGTH;
    if |a| > max && |b| > max {
      assert IsDigest(digest(a)) && IsDigest(digest(b));
      SameSuffix(Trimmed(a, max) + "-", digest(a), Trimmed(b, max) + "-", digest(b));
    } else if |a| <= max && |b| <= max {
    } else {
      BoundedInjective(digest, a, b, max);
    }
    if a == b { JobRawInjective(s, g, s', g'); }
  }

  lemma JobRawInjective(s: string, g: string, s': string, g': string)
    requires s != "" && s' != "" && IsDecimal(g) && IsDecimal(g')
    requires Raw([s, "client", g]) == Raw([s', "client", g'])
    ensures Slug(s) == Slug(s') && g == g'
  {
    JobRaw(s, g);
    JobRaw(s', g');
    LastDash(Slug(s) + "-client", g, Slug(s') + "-client", g');
    SameSuffix(Slug(s), "-client", Slug(s'), "-client");
  }

  /** Whether a truncated Job name meets an untruncated one. */
  predicate JobNamesClash(digest: Digest, s: string, g: string, s': string, g': string) {
    var truncated := Raw([s, "client", g]);
    && |truncated| > RESOURCE_NAME_MAX_LENGTH >= |Raw([s', "client", g'])|
    && digest(truncated) == g'
    && Trimmed(truncated, RESOURCE_NAME_MAX_LENGTH) == Slug(s') + "-client"
  }

  /** The only way a truncated Job name meets an untruncated one: the generation of the latter
      spells the digest, and its session is what remains of the former. */
  lemma JobNameClash(digest: Digest, s: string, g: string, s': string, g': string)
    requires s != "" && s' != "" && IsDecimal(g) && IsDecimal(g')
    requires |Raw([s, "client", g])| > RESOURCE_NAME_MAX_LENGTH >= |Raw([s', "client", g'])|
    ensures JobName(digest, s, g) == JobName(digest, s', g') <==> JobNamesClash(digest, s, g, s', g')
  {
    var a := Raw([s, "client", g]);
    JobRaw(s', g');
    SlugIsHostLabel(s');
    assert IsDigest(digest(a));
    SameTail(Trimmed(a, RESOURCE_NAME_MAX_LENGTH), digest(a), Slug(s') + "-client", g');
  }

  /** Job names agree exactly for the same session slug and generation, or in such a clash. */
  lemma JobNamesAgree(digest: Digest, s: string, g: string, s': string, g': string)
    requires s != "" && s' != "" && IsDecimal(g) && IsDecimal(g')
    requires NoCollision(digest, Raw([s, "client", g]), Raw([s', "client", g']))
    ensures JobName(digest, s, g) == JobName(digest, s', g') <==>
            || (Slug(s) == Slug(s') && g == g')
            || JobNamesClash(digest, s, g, s', g') || JobNamesClash(digest, s', g', s, g)
  {
    var a, b := Raw([s, "client", g]), Raw([s', "client", g']);
    if |a| > RESOURCE_NAME_MAX_LENGTH >= |b| {
      JobNameClash(digest, s, g, s', g');
      SameJobRaw(s, g, s', g');
    } else if |b| > RESOURCE_NAME_MAX_LENGTH >= |a| {
      JobNameClash(digest, s', g', s, g);
      SameJobRaw(s, g, s', g');
    } else {
      JobNameInjective(digest, s, g, s', g');
    }
  }

  lemma SameJobRaw(s: string, g: string, s': string, g': string)
    requires s != "" && s' != "" && IsDecimal(g) && IsDecimal(g')
    ensures Slug(s) == Slug(s') && g == g' ==> Raw([s, "client", g]) == Raw([s', "client", g'])
  {
    JobRaw(s, g);
    JobRaw(s', g');
  }

  /** Without a generation of eight digits there is no clash. */
  lemma OrdinaryGenerationsNeverClash(digest: Digest, s: string, g: string, s': string, g': string)
    requires |g'| != DIGEST_LENGTH
    ensures !JobNamesClash(digest, s, g, s', g')
  {
    assert IsDigest(digest(Raw([s, "client", g])));
  }

  lemma SameTail(trimmed: string, d: string, front: string, g: string)
    requires IsDigest(d) && IsDecimal(g) && |front| >= DIGEST_LENGTH
    requires EndsLikeDigest(front + "-" + g) <==> |g| == DIGEST_LENGTH
    ensures trimmed + "-" + d == front + "-" + g <==> trimmed == front && d == g
  {
    var x := trimmed + "-" + d;
    assert x[|x| - DIGEST_LENGTH..] == d;
    if x == front + "-" + g {
      SameSuffix(trimmed + "-", d, front + "-", g);
      SameSuffix(trimmed, "-", front, "-");
    }
  }

  // ----- Two sessions whose Jobs share a name -----

  /** A measurement may be named like the Job role of another measurement's session. */
  function Namesake(session: string): string {
    session + "-client"
  }

  lemma NamesakeIsHostLabel(session: string)
    requires |session| == 34 && IsHostLabel(session, 34)
    ensures |Namesake(session)| == 41 && IsHostLabel(Namesake(session), 41) &&
            Slug(Namesake(session)) == Namesake(session)
  {
    SlugFixed(Namesake(session));
  }

  lemma SlugLengths(direction: string)
    requires IsDirection(direction)
    ensures |DirectionSlug(direction)| == 19 && DirectionSlug(direction)[7] != '-'
  {
  }

  lemma HostLabelPrefix(m: string)
    requires IsHostLabel(m, |m|)
    ensures NamePrefix(m) == m + "-"
  {
    SlugFixed(m);
  }

  /** A session name short enough to be spelled out. */
  lemma ShortSession(digest: Digest, m: string, mode: string, d: string, session: string)
    requires IsHostLabel(m, 10) && |m| == 10 && IsNetworkMode(mode) && |mode| == 3 && IsDirection(d)
    requires session == SessionName(digest, m, mode, d)
    ensures |session| == 34 && IsHostLabel(session, 34) && Slug(session) == session
  {
    HostLabelPrefix(m);
    SlugLengths(d);
    SessionRaw(m, mode, d);
    StableNameIsHostLabel(digest, [m, mode, d], LABEL_MAX_LENGTH);
    SlugFixed(session);
  }

  /** A session name that is cut at the limit, and still starts with the measurement's name. */
  lemma LongSession(digest: Digest, m: string, mode: string, d: string, session: string)
    requires IsHostLabel(m, 41) && |m| == 41 && IsNetworkMode(mode) && |mode| == 3 && IsDirection(d)
    requires session == SessionName(digest, m, mode, d)
    ensures |session| == 63 && IsHostLabel(session, 63) && Slug(session) == session && session[..41] == m
  {
    HostLabelPrefix(m);
    SlugLengths(d);
    SessionRaw(m, mode, d);
    CutText(m, mode, DirectionSlug(d), Raw([m, mode, d]));
    assert IsDigest(digest(Raw([m, mode, d])));
    StableNameIsHostLabel(digest, [m, mode, d], LABEL_MAX_LENGTH);
    SlugFixed(session);
  }

  lemma CutText(m: string, mode: string, d: string, raw: string)
    requires |m| == 41 && |mode| == 3 && |d| == 19 && d[7] != '-'
    requires raw == m + "-" + mode + "-" + d
    ensures |raw| == 65 && |Trimmed(raw, LABEL_MAX_LENGTH)| == 54 && Trimmed(raw, LABEL_MAX_LENGTH)[..41] == m
  {
    assert raw[53] == d[7];
    assert raw[..54][53] == raw[53];
  }

  lemma LongJob(m: string, session: string, g: string)
    requires |m| == 41 && IsHostLabel(m, 41) && |session| == 63 && Slug(session) == session && session[..41] == m
    requires IsDecimal(g) && |g| == 1
    ensures |Raw([session, "client", g])| == 72
    ensures Trimmed(Raw([session, "client", g]), RESOURCE_NAME_MAX_LENGTH) == m
  {
    JobRaw(session, g);
    KeptPart(m, Raw([session, "client", g]));
  }

  lemma KeptPart(m: string, raw: string)
    requires |m| == 41 && m[40] != '-' && |raw| == 72 && raw[..41] == m
    ensures Trimmed(raw, RESOURCE_NAME_MAX_LENGTH) == m
  {
  }

  lemma ShortJob(session: string, g: string)
    requires |session| == 34 && Slug(session) == session && IsDecimal(g) && |g| == DIGEST_LENGTH
    ensures |Raw([session, "client", g])| == RESOURCE_NAME_MAX_LENGTH
  {
    JobRaw(session, g);
  }

  /** For any short measurement and its namesake, the names of a session of each clash as soon as
      the digest of the long Job name spells the generation of the short one. */
  lemma NamesakesClash(digest: Digest, m: string, mode: string, d: string, session: string, namesake: string, g: string,
                       g': string)
    requires IsHostLabel(m, 10) && |m| == 10 && IsNetworkMode(mode) && |mode| == 3 && IsDirection(d)
    requires session == SessionName(digest, m, mode, d)
    requires namesake == SessionName(digest, Namesake(session), mode, d)
    requires IsDecimal(g) && |g| == 1 && IsDecimal(g') && |g'| == DIGEST_LENGTH
    ensures session != "" && namesake != "" && Slug(namesake) != Slug(session)
    ensures |Raw([namesake, "client", g])| == 72 && |Raw([session, "client", g'])| == RESOURCE_NAME_MAX_LENGTH
    ensures digest(Raw([namesake, "client", g])) == g' <==> JobName(digest, namesake, g) == JobName(digest, session, g')
  {
    ShortSession(digest, m, mode, d, session);
    NamesakeIsHostLabel(session);
    LongSession(digest, Namesake(session), mode, d, namesake);
    LongJob(Namesake(session), namesake, g);
    ShortJob(session, g');
    JobNameClash(digest, namesake, g, session, g');
  }

  function ClashingDigest(): Digest {
    text => if |text| == 72 then "12345678" else "00000000"
  }

  lemma ClashingTexts() returns (m: string, mode: string, g: string, g': string)
    ensures IsHostLabel(m, 10) && |m| == 10 && IsNetworkMode(mode) && |mode| == 3
    ensures IsDecimal(g) && |g| == 1 && IsDecimal(g') && g' == "12345678"
  {
    m, mode, g, g' := "bandwidth1", "pod", "1", "12345678";
  }

  /** It can happen to names the operator generates: with a digest that has no collision on the
      two texts, there are two sessions whose Jobs share a name. */
  lemma JobNamesCanClash()
    returns (digest: Digest, m: string, m': string, mode: string, d: string, g: string, g': string)
    ensures IsNetworkMode(mode) && IsDirection(d) && IsDecimal(g) && IsDecimal(g')
    ensures var s, s' := SessionName(digest, m, mode, d), SessionName(digest, m', mode, d);
      && s != "" && s' != "" && Slug(s) != Slug(s')
      && NoCollision(digest, Raw([s, "client", g]), Raw([s', "client", g']))
      && JobName(digest, s, g) == JobName(digest, s', g')
  {
    digest, d := ClashingDigest(), SOURCE_TO_DESTINATION;
    m', mode, g, g' := ClashingTexts();
    var s' := SessionName(digest, m', mode, d);
    m := Namesake(s');
    var s := SessionName(digest, m, mode, d);
    NamesakesClash(digest, m', mode, d, s', s, g, g');
    assert digest(Raw([s, "client", g])) == g';
    assert digest(Raw([s', "client", g'])) == "00000000";
  }
}
