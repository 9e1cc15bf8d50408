/** The naming scheme of the operator: slugs, bounded stable names and label values,
    and the proof that generated names identify what they were generated from. */
module Names {

  const LABEL_MAX_LENGTH: nat := 63
  const RESOURCE_NAME_MAX_LENGTH: nat := 50
  const DIGEST_LENGTH: nat := 8

  // ----- Characters and slugs -----

  predicate IsAlnum(c: char) {
    'a' <= c <= 'z' || '0' <= c <= '9'
  }

  predicate IsHex(c: char) {
    'a' <= c <= 'f' || '0' <= c <= '9'
  }

  predicate IsSlugChar(c: char) {
    IsAlnum(c) || c == '-'
  }

  /** Lower-casing of one character. Besides A-Z, only two characters of Unicode lower-case
      to something with an ASCII part; every other non-ASCII character stays non-ASCII. */
  function LowerChar(c: char): string {
    if 'A' <= c <= 'Z' then [(c as int + 32) as char]
    else if c == '\U{212A}' then "k"
    else if c == '\U{0130}' then "i\U{0307}"
    else [c]
  }

  function Lower(s: string): string {
    if s == "" then "" else LowerChar(s[0]) + Lower(s[1..])
  }

  /** What one lower-cased character contributes to a slug. */
  function KeptChar(c: char): string {
    if IsAlnum(c) then [c]
    else if c == '.' || c == '_' || c == '-' || c == '/' then "-"
    else ""
  }

  function Kept(s: string): string {
    if s == "" then "" else KeptChar(s[0]) + Kept(s[1..])
  }

  function StripLeft(s: string): string {
    if s != "" && s[0] == '-' then StripLeft(s[1..]) else s
  }

  function StripRight(s: string): string {
    if s != "" && s[|s| - 1] == '-' then StripRight(s[..|s| - 1]) else s
  }

  function Slug(s: string): string {
    var slug := StripRight(StripLeft(Kept(Lower(s))));
    if slug == "" then "x" else slug
  }

  method Slugify(value: string) returns (slug: string)
    ensures slug == Slug(value)
  {
    var allowed := "";
    var lower := Lower(value);
    for i := 0 to |lower|
      invariant allowed + Kept(lower[i..]) == Kept(lower)
    {
      var c := lower[i];
      KeptStep(allowed, lower, i);
      if IsAlnum(c) {
        allowed := allowed + [c];
      } else if c in {'.', '_', '-', '/'} {
        allowed := allowed + "-";
      }
    }
    assert allowed == allowed + Kept(lower[|lower|..]);
    slug := StripRight(StripLeft(allowed));
    if slug == "" {
      slug := "x";
    }
  }

  lemma KeptStep(allowed: string, s: string, i: nat)
    requires i < |s|
    ensures allowed + Kept(s[i..]) == allowed + KeptChar(s[i]) + Kept(s[i + 1..])
  {
  }

  // ----- Stable names -----

  /** The first eight hexadecimal digits of a message digest: any function of that shape. */
  type Digest = f: string -> string | forall s :: IsDigest(f(s)) witness _ => "00000000"

  predicate IsDigest(d: string) {
    |d| == DIGEST_LENGTH && forall i :: 0 <= i < |d| ==> IsHex(d[i])
  }

  /** The slugs of the nonempty parts, joined by dashes. */
  function Raw(parts: seq<string>): string {
    if parts == [] then ""
    else
      var rest := Raw(parts[1..]);
      if parts[0] == "" then rest
      else if rest == "" then Slug(parts[0])
      else Slug(parts[0]) + "-" + rest
  }

  /** The text in front of the digest of a name over the limit. */
  function Trimmed(raw: string, maxLength: nat): string {
    var keep := if maxLength < DIGEST_LENGTH + 1 then |raw| + maxLength - DIGEST_LENGTH - 1
                else maxLength - DIGEST_LENGTH - 1;
    StripRight(if keep <= 0 then "" else if keep <= |raw| then raw[..keep] else raw)
  }

  function Bounded(digest: Digest, raw: string, maxLength: nat): string {
    if |raw| <= maxLength then raw
    else Trimmed(raw, maxLength) + "-" + digest(raw)
  }

  function StableName(digest: Digest, parts: seq<string>, maxLength: nat := LABEL_MAX_LENGTH): string {
    Bounded(digest, Raw(parts), maxLength)
  }

  function LabelValue(digest: Digest, value: string): string {
    StableName(digest, [value], LABEL_MAX_LENGTH)
  }

  // ----- Every nonempty stable name is a host label -----

  ghost predicate AllSlugChars(s: string) {
    forall i :: 0 <= i < |s| ==> IsSlugChar(s[i])
  }

  /** Section 2.1 of RFC 1123 and section 2.3.4 of RFC 1035: lower-case letters, digits and
      dashes, no dash at either end. */
  ghost predicate IsHostLabel(s: string, maxLength: nat) {
    && 0 < |s| <= maxLength
    && AllSlugChars(s)
    && s[0] != '-' && s[|s| - 1] != '-'
  }

  lemma {:induction false} KeptIsSlug(s: string)
    ensures AllSlugChars(Kept(s))
  {
    if s != "" { KeptIsSlug(s[1..]); }
  }

  lemma {:induction false} StripLeftShape(s: string)
    ensures StripLeft(s) == "" || StripLeft(s)[0] != '-'
    ensures |StripLeft(s)| <= |s| && StripLeft(s) == s[|s| - |StripLeft(s)|..]
  {
    if s != "" && s[0] == '-' { StripLeftShape(s[1..]); }
  }

  lemma {:induction false} StripRightShape(s: string)
    ensures StripRight(s) <= s
    ensures StripRight(s) == "" || StripRight(s)[|StripRight(s)| - 1] != '-'
    ensures s != "" && s[0] != '-' ==> StripRight(s) != ""
  {
    if s != "" && s[|s| - 1] == '-' { StripRightShape(s[..|s| - 1]); }
  }

  lemma SlugIsHostLabel(s: string)
    ensures IsHostLabel(Slug(s), |Slug(s)|)
  {
    KeptIsSlug(Lower(s));
    StripLeftShape(Kept(Lower(s)));
    StripRightShape(StripLeft(Kept(Lower(s))));
  }

  lemma {:induction false} RawIsHostLabel(parts: seq<string>)
    ensures Raw(parts) == "" || IsHostLabel(Raw(parts), |Raw(parts)|)
    ensures Raw(parts) == "" <==> AllEmpty(parts)
  {
    if parts != [] {
      RawIsHostLabel(parts[1..]);
      SlugIsHostLabel(parts[0]);
    }
  }

  predicate AllEmpty(parts: seq<string>) {
    parts == [] || (parts[0] == "" && AllEmpty(parts[1..]))
  }

  lemma BoundedIsHostLabel(digest: Digest, raw: string, maxLength: nat)
    requires maxLength >= DIGEST_LENGTH + 2
    requires IsHostLabel(raw, |raw|)
    ensures IsHostLabel(Bounded(digest, raw, maxLength), maxLength)
  {
    if |raw| > maxLength {
      StripRightShape(raw[..maxLength - DIGEST_LENGTH - 1]);
      assert IsDigest(digest(raw));
    }
  }

  /** A stable name is empty exactly when every part is; otherwise it is a host label. */
  lemma StableNameIsHostLabel(digest: Digest, parts: seq<string>, maxLength: nat)
    requires maxLength >= DIGEST_LENGTH + 2
    ensures StableName(digest, parts, maxLength) == "" <==> AllEmpty(parts)
    ensures StableName(digest, parts, maxLength) == "" || IsHostLabel(StableName(digest, parts, maxLength), maxLength)
  {
    RawIsHostLabel(parts);
    if Raw(parts) != "" { BoundedIsHostLabel(digest, Raw(parts), maxLength); }
  }

  // ----- Host labels are fixed points -----

  lemma {:induction false} KeptLowerFixed(s: string)
    requires AllSlugChars(s)
    ensures Kept(Lower(s)) == s
  {
    if s != "" {
      KeptLowerFixed(s[1..]);
      assert IsSlugChar(s[0]);
      assert Lower(s)[1..] == Lower(s[1..]);
    }
  }

  lemma SlugFixed(s: string)
    requires IsHostLabel(s, |s|)
    ensures Slug(s) == s
  {
    KeptLowerFixed(s);
  }

  /** Labelling a label changes nothing. */
  lemma LabelValueIdempotent(digest: Digest, value: string)
    ensures LabelValue(digest, LabelValue(digest, value)) == LabelValue(digest, value)
  {
    StableNameIsHostLabel(digest, [value], LABEL_MAX_LENGTH);
    var result := LabelValue(digest, value);
    if result != "" {
      SlugFixed(result);
      assert Raw([result]) == Slug(result);
    }
  }

  // ----- Injectivity -----

  /** Whether a text could be taken for a truncated name: it ends in a dash and a digest. */
  predicate EndsLikeDigest(s: string) {
    && |s| > DIGEST_LENGTH
    && s[|s| - DIGEST_LENGTH - 1] == '-'
    && IsDigest(s[|s| - DIGEST_LENGTH..])
  }

  /** The digest tells the two texts apart, if they differ. */
  predicate NoCollision(digest: Digest, a: string, b: string) {
    a == b || digest(a) != digest(b)
  }

  /** Bounding a name loses nothing, as long as the digest has no collision on the two texts
      and neither text imitates a truncated name. */
  lemma BoundedInjective(digest: Digest, a: string, b: string, maxLength: nat)
    requires NoCollision(digest, a, b)
    requires |a| <= maxLength ==> !EndsLikeDigest(a)
    requires |b| <= maxLength ==> !EndsLikeDigest(b)
    ensures Bounded(digest, a, maxLength) == Bounded(digest, b, maxLength) <==> a == b
  {
    var x, y := Bounded(digest, a, maxLength), Bounded(digest, b, maxLength);
    assert IsDigest(digest(a)) && IsDigest(digest(b));
    if |a| > maxLength { assert x[|x| - DIGEST_LENGTH..] == digest(a); }
    if |b| > maxLength { assert y[|y| - DIGEST_LENGTH..] == digest(b); }
  }
}
