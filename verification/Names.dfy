/** How the platform makes resource names, host labels and image tags, and the grammars they must land in. */
module Names {
  import opened Text

  const MAX_LABEL: nat := 63
  const MAX_TAG: nat := 128
  const DASH: set<char> := {'-'}
  const TAG_EDGE: set<char> := {'.', '-'}

  predicate LabelChar(c: char) {
    'a' <= c <= 'z' || '0' <= c <= '9' || c == '-'
  }

  /** A DNS label in the lower-case form of section 2.1 of RFC 1123, at most 63 long (section 2.3.4 of RFC 1035):
      what `validate_name` accepts. */
  predicate ValidLabel(s: string) {
    && 0 < |s| <= MAX_LABEL
    && All(s, LabelChar)
    && s[0] != '-' && s[|s| - 1] != '-'
  }

  // ---- slugify ----

  /** The part of `s` after its leading run of characters that no label may hold. */
  function AfterBadRun(s: string): (r: string)
    ensures |r| <= |s|
    ensures s != [] && !LabelChar(s[0]) ==> |r| < |s|
  {
    if s != [] && !LabelChar(s[0]) then AfterBadRun(s[1..]) else s
  }

  /** `re.sub("[^a-z0-9-]+", "-", s)` */
  function Dashed(s: string): (r: string)
    ensures All(r, LabelChar)
    ensures All(s, LabelChar) ==> r == s
    decreases |s|
  {
    if s == [] then []
    else if LabelChar(s[0]) then [s[0]] + Dashed(s[1..])
    else "-" + Dashed(AfterBadRun(s))
  }

  function OrElse(s: string, default: string): string {
    if s == [] then default else s
  }

  /** `lower` stands for `str.lower`. */
  function Slugify(lower: string -> string, value: string): string {
    OrElse(Strip(Clip(Strip(Dashed(lower(Strip(value, WHITESPACE))), DASH), MAX_LABEL), DASH), "item")
  }

  /** All that is used of `str.lower`: it leaves text made of label characters alone. */
  ghost predicate KeepsLabels(lower: string -> string) {
    forall s: string :: All(s, LabelChar) ==> lower(s) == s
  }

  lemma TrimmedCutIsValid(s: string)
    requires All(s, LabelChar)
    ensures ValidLabel(OrElse(Strip(Clip(s, MAX_LABEL), DASH), "item"))
  {
    StripKeepsAll(Clip(s, MAX_LABEL), DASH, LabelChar);
  }

  lemma SlugIsValid(lower: string -> string, value: string)
    ensures ValidLabel(Slugify(lower, value))
  {
    var dashed := Dashed(lower(Strip(value, WHITESPACE)));
    StripKeepsAll(dashed, DASH, LabelChar);
    TrimmedCutIsValid(Strip(dashed, DASH));
  }

  /** A name that is already valid is its own slug. */
  lemma SlugKeepsValid(lower: string -> string, name: string)
    requires KeepsLabels(lower) && ValidLabel(name)
    ensures Slugify(lower, name) == name
  {
    assert !IsSpace(name[0]) && !IsSpace(name[|name| - 1]);
    assert Strip(name, WHITESPACE) == name;
    assert Strip(name, DASH) == name;
  }

  /** Slugs are valid names, slugging a second time changes nothing, and the fixed points are the valid names. */
  lemma SlugIdempotent(lower: string -> string, value: string)
    requires KeepsLabels(lower)
    ensures Slugify(lower, Slugify(lower, value)) == Slugify(lower, value)
    ensures Slugify(lower, value) == value <==> ValidLabel(value)
  {
    SlugIsValid(lower, value);
    SlugKeepsValid(lower, Slugify(lower, value));
    if ValidLabel(value) { SlugKeepsValid(lower, value); }
  }

  lemma {:induction false} RunIsSkipped(bad: string, b: string)
    requires (forall i :: 0 <= i < |bad| ==> !LabelChar(bad[i])) && (b == "" || LabelChar(b[0]))
    ensures AfterBadRun(bad + b) == b
  {
    if bad == "" {
      assert bad + b == b;
    } else {
      assert (bad + b)[1..] == bad[1..] + b;
      RunIsSkipped(bad[1..], b);
    }
  }

  lemma DashedStarts(s: string)
    requires s != ""
    ensures Dashed(s) == if LabelChar(s[0]) then [s[0]] + Dashed(s[1..]) else "-" + Dashed(AfterBadRun(s))
  {
  }

  lemma FrontRun(bad: string, b: string)
    requires bad != "" && (forall i :: 0 <= i < |bad| ==> !LabelChar(bad[i])) && (b == "" || LabelChar(b[0]))
    ensures Dashed("" + bad + b) == "" + "-" + Dashed(b)
  {
    hide Dashed, LabelChar, AfterBadRun;
    RunIsSkipped(bad, b);
    assert "" + bad + b == bad + b && (bad + b)[0] == bad[0];
    DashedStarts(bad + b);
  }

  lemma OneInFront(c: char, a: string, bad: string, b: string)
    requires LabelChar(c) && Dashed(a + bad + b) == a + "-" + Dashed(b)
    ensures Dashed([c] + a + bad + b) == [c] + a + "-" + Dashed(b)
  {
    hide Dashed, LabelChar, AfterBadRun;
    var rest := a + bad + b;
    DashedStarts([c] + rest);
    assert [c] + a + bad + b == [c] + rest && ([c] + rest)[1..] == rest;
    assert [c] + (a + "-" + Dashed(b)) == [c] + a + "-" + Dashed(b);
  }

  /** What a run of other characters separates stays apart, by one dash. */
  lemma {:induction false} PartsStayApart(a: string, bad: string, b: string)
    requires (forall i :: 0 <= i < |a| ==> LabelChar(a[i])) && (b == "" || LabelChar(b[0]))
    requires bad != "" && forall i :: 0 <= i < |bad| ==> !LabelChar(bad[i])
    ensures Dashed(a + bad + b) == a + "-" + Dashed(b)
    decreases |a|
  {
    hide Dashed, LabelChar, AfterBadRun;
    if a == "" {
      FrontRun(bad, b);
    } else {
      PartsStayApart(a[1..], bad, b);
      OneInFront(a[0], a[1..], bad, b);
      assert [a[0]] + a[1..] == a;
    }
  }

  /** Two words that fit into a label make a slug of both, with one dash between them. */
  lemma SlugOfWords(lower: string -> string, a: string, bad: string, b: string)
    requires ValidLabel(a) && ValidLabel(b) && bad != "" && (forall i :: 0 <= i < |bad| ==> !LabelChar(bad[i]))
    requires lower(a + bad + b) == a + bad + b && |a| + 1 + |b| <= MAX_LABEL
    ensures Slugify(lower, a + bad + b) == a + "-" + b
  {
    var value := a + bad + b;
    assert Strip(value, WHITESPACE) == value by { EndsAreNoSpace(a, bad, b); }
    hide Dashed, Strip;
    PartsStayApart(a, bad, b);
    WholeLabel(a, b);
  }

  lemma EndsAreNoSpace(a: string, bad: string, b: string)
    requires ValidLabel(a) && ValidLabel(b)
    ensures Strip(a + bad + b, WHITESPACE) == a + bad + b
  {
    var value := a + bad + b;
    assert value[0] == a[0] && value[|value| - 1] == b[|b| - 1] && !IsSpace(a[0]) && !IsSpace(b[|b| - 1]);
  }

  // ---- namespaces, releases and host labels ----

  function TruncateLabel(s: string): string {
    RStrip(Clip(s, MAX_LABEL), DASH)
  }

  function NamespaceName(clientSlug: string, environment: string): string {
    TruncateLabel(clientSlug + "-" + environment)
  }

  /** The controller's name for an application's Argo CD object. */
  function ArgoAppName(namespace: string, app: string): string {
    RStrip(Clip(namespace + "-" + app, MAX_LABEL), DASH)
  }

  /** The API's (namespace, release) pair. */
  function ApiRelease(client: string, environment: string, app: string): (string, string) {
    var namespace := TruncateLabel(client + "-" + environment);
    (namespace, TruncateLabel(namespace + "-" + app))
  }

  /** The portal's release name; empty until the record knows its namespace and name. */
  function PortalRelease(namespace: string, app: string): string {
    if namespace == [] || app == [] then [] else RStrip(Clip(namespace + "-" + app, MAX_LABEL), DASH)
  }

  function HostLabel(app: string, environment: string, clientSlug: string): string {
    Strip(Clip(app + "-" + environment + "-" + clientSlug, MAX_LABEL), DASH)
  }

  lemma TruncatedIsValid(s: string)
    requires s != [] && s[0] != '-'
    requires All(s, LabelChar)
    ensures ValidLabel(TruncateLabel(s))
    ensures ValidLabel(Strip(Clip(s, MAX_LABEL), DASH))
  {
    var cut := Clip(s, MAX_LABEL);
    var t := RStrip(cut, DASH);
    assert cut[0] == s[0] && t != [];
    assert t <= s;
    assert LStrip(cut, DASH) == cut;
  }

  lemma JoinedIsLabel(a: string, b: string)
    requires a != [] && a[0] != '-' && All(a, LabelChar) && All(b, LabelChar)
    ensures var s := a + "-" + b; s != [] && s[0] != '-' && All(s, LabelChar)
  {
    var s := a + "-" + b;
    assert forall i :: 0 <= i < |s| ==> s[i] == if i < |a| then a[i] else if i == |a| then '-' else b[i - |a| - 1];
  }

  /** From valid names, the controller, the API and the portal agree on one namespace and one release name, and these
      and the generated host label are valid labels. */
  lemma ReleaseNamesAgree(client: string, environment: string, app: string)
    requires ValidLabel(client) && ValidLabel(environment) && ValidLabel(app)
    ensures var namespace := NamespaceName(client, environment);
            var release := ArgoAppName(namespace, app);
            && ValidLabel(namespace) && ValidLabel(release)
            && ApiRelease(client, environment, app) == (namespace, release)
            && PortalRelease(namespace, app) == release
    ensures ValidLabel(HostLabel(app, environment, client))
  {
    JoinedIsLabel(client, environment);
    TruncatedIsValid(client + "-" + environment);
    var namespace := NamespaceName(client, environment);
    JoinedIsLabel(namespace, app);
    TruncatedIsValid(namespace + "-" + app);
    JoinedIsLabel(app, environment);
    JoinedIsLabel(app + "-" + environment, client);
    TruncatedIsValid(app + "-" + environment + "-" + client);
  }

  /** Names that fit are joined in full, in this order, and the portal has no release without both of its parts. */
  lemma FittingNamesAreWhole(client: string, environment: string, app: string)
    requires ValidLabel(client) && ValidLabel(environment) && ValidLabel(app)
    requires |client| + 1 + |environment| + 1 + |app| <= MAX_LABEL
    ensures NamespaceName(client, environment) == client + "-" + environment
    ensures ArgoAppName(client, app) == client + "-" + app == PortalRelease(client, app)
    ensures ApiRelease(client, environment, app) == (client + "-" + environment, client + "-" + environment + "-" + app)
    ensures HostLabel(app, environment, client) == app + "-" + environment + "-" + client
    ensures PortalRelease("", app) == PortalRelease(client, "") == ""
  {
    WholeLabel(client, environment);
    WholeLabel(client, app);
    WholeLabel(client + "-" + environment, app);
    WholeLabel(app + "-" + environment, client);
    hide RStrip, Strip;
  }

  lemma WholeLabel(a: string, b: string)
    requires a != "" && a[0] != '-' && b != "" && b[|b| - 1] != '-' && |a| + 1 + |b| <= MAX_LABEL
    ensures var s := a + "-" + b; Clip(s, MAX_LABEL) == s && RStrip(s, DASH) == s && Strip(s, DASH) == s
  {
    var s := a + "-" + b;
    assert s[0] == a[0] && s[|s| - 1] == b[|b| - 1];
  }

  // ---- image tags ----

  predicate TagChar(c: char) {
    'a' <= c <= 'z' || 'A' <= c <= 'Z' || '0' <= c <= '9' || c == '_' || c == '.' || c == '-'
  }

  /** The tag grammar of the section "Pulling manifests" of the OCI Distribution Specification. */
  predicate ValidTag(s: string) {
    && 0 < |s| <= MAX_TAG
    && All(s, TagChar)
    && s[0] !in TAG_EDGE
  }

  function TagChars(s: string): (r: string)
    ensures |r| == |s|
    ensures forall i :: 0 <= i < |s| ==> r[i] == if TagChar(s[i]) then s[i] else '-'
  {
    seq(|s|, i requires 0 <= i < |s| => if TagChar(s[i]) then s[i] else '-')
  }

  /** The tag before it is cut. */
  function UncutTag(ref: string): string {
    OrElse(Strip(TagChars(Strip(ref, WHITESPACE)), TAG_EDGE), "latest")
  }

  function SanitizeTag(ref: string): string {
    Clip(UncutTag(ref), MAX_TAG)
  }

  lemma TrimmedTagIsValid(s: string)
    requires All(s, TagChar)
    ensures ValidTag(Clip(OrElse(Strip(s, TAG_EDGE), "latest"), MAX_TAG))
  {
    StripKeepsAll(s, TAG_EDGE, TagChar);
    ClippedTagIsValid(Strip(s, TAG_EDGE));
  }

  lemma ClippedTagIsValid(s: string)
    requires All(s, TagChar) && (s != [] ==> s[0] !in TAG_EDGE)
    ensures ValidTag(Clip(OrElse(s, "latest"), MAX_TAG))
  {
  }

  lemma SanitizedTagIsValid(ref: string)
    ensures ValidTag(SanitizeTag(ref))
  {
    TrimmedTagIsValid(TagChars(Strip(ref, WHITESPACE)));
  }

  /** A valid tag has nothing to sanitize but its end. */
  lemma SanitizeValidTag(tag: string)
    requires ValidTag(tag)
    ensures SanitizeTag(tag) == Clip(OrElse(Strip(tag, TAG_EDGE), "latest"), MAX_TAG)
  {
    assert !IsSpace(tag[0]) && !IsSpace(tag[|tag| - 1]);
    assert TagChars(tag) == tag;
  }

  /** Sanitizing keeps exactly the valid tags that do not end in '.' or '-'. */
  lemma SanitizeKeepsIff(tag: string)
    requires ValidTag(tag)
    ensures SanitizeTag(tag) == tag <==> tag[|tag| - 1] !in TAG_EDGE
  {
    SanitizeValidTag(tag);
    assert Strip(tag, TAG_EDGE) != [];
  }

  /** The tag before the cut ends well. */
  lemma UncutTagEnds(ref: string)
    ensures var t := UncutTag(ref); t != "" && t[|t| - 1] !in TAG_EDGE
  {
  }

  /** Sanitizing twice is sanitizing once if and only if nothing is cut, or the last character that is not cut is neither
      '.' nor '-'. */
  lemma SanitizeIdempotentIff(ref: string)
    ensures var t := UncutTag(ref);
            SanitizeTag(SanitizeTag(ref)) == SanitizeTag(ref) <==> |t| <= MAX_TAG || t[MAX_TAG - 1] !in TAG_EDGE
  {
    SanitizedTagIsValid(ref);
    SanitizeKeepsIff(SanitizeTag(ref));
    UncutTagEnds(ref);
    hide UncutTag, ValidTag;
    var t := UncutTag(ref);
    assert |t| > MAX_TAG ==> SanitizeTag(ref) == t[..MAX_TAG];
  }

  /** The cut does leave such an end: 127 letters, a dot and one more letter. */
  lemma SanitizeNotIdempotent()
    ensures exists ref :: SanitizeTag(SanitizeTag(ref)) != SanitizeTag(ref)
  {
    var ref := seq(127, _ => 'a') + ".a";
    assert Strip(ref, WHITESPACE) == ref;
    assert TagChars(ref) == ref;
    assert Strip(ref, TAG_EDGE) == ref;
    assert UncutTag(ref) == ref;
    SanitizeIdempotentIff(ref);
  }
}
