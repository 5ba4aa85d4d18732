/** The public manifest, the private apply artifact, and the context that apply runs in. */
module RetentionApply {
  import opened Utf16
  import opened Options
  import opened StableSort
  import opened JsonValue
  import opened CanonicalJson
  import opened EscrowNames
  import opened EscrowRecords
  import opened EscrowCodec
  import opened EscrowStages
  import opened RetentionPolicy
  import opened EscrowLoader

  const ARTIFACT_VERSION: int := 2

  /** createdAt */
  const CREATED_AT: Text := [99, 114, 101, 97, 116, 101, 100, 65, 116]
  /** messageCount */
  const MESSAGE_COUNT: Text := [109, 101, 115, 115, 97, 103, 101, 67, 111, 117, 110, 116]
  /** notificationCount */
  const NOTIFICATION_COUNT: Text := [110, 111, 116, 105, 102, 105, 99, 97, 116, 105, 111, 110, 67, 111, 117, 110, 116]
  /** errorCount */
  const ERROR_COUNT: Text := [101, 114, 114, 111, 114, 67, 111, 117, 110, 116]
  /** escrow */
  const ESCROW: Text := [101, 115, 99, 114, 111, 119]
  /** bindings */
  const BINDINGS: Text := [98, 105, 110, 100, 105, 110, 103, 115]
  /** batchRecordId */
  const BATCH_RECORD_ID: Text := [98, 97, 116, 99, 104, 82, 101, 99, 111, 114, 100, 73, 100]

  datatype Manifest = Manifest(siteId: Text, cutoff: Text, policyVersion: int, batches: seq<PublicBatch>, hash: Text)

  datatype Binding = Binding(manifestIndex: int, batchRecordId: Text)

  datatype Artifact = Artifact(
    version: int, siteId: Text, publicManifestHash: Text, escrow: Verification, bindings: seq<Binding>, hash: Text)

  // ---------- what is hashed

  function BatchValue(b: PublicBatch): Value {
    VObject([Str(BATCH_ID, b.batchId), Str(CREATED_AT, b.createdAt), Number(MESSAGE_COUNT, b.messageCount),
             Number(NOTIFICATION_COUNT, b.notificationCount), Number(ERROR_COUNT, b.errorCount)])
  }

  function BatchValues(bs: seq<PublicBatch>): seq<Value> { seq(|bs|, i requires 0 <= i < |bs| => BatchValue(bs[i])) }

  function ManifestValue(siteId: Text, cutoff: Text, policyVersion: int, batches: seq<PublicBatch>): Value {
    VObject([Str(SITE_ID, siteId), Entry(BATCHES, VArray(BatchValues(batches))), Str(CUTOFF, cutoff), Number(EscrowNames.POLICY_VERSION, policyVersion)])
  }

  function VerificationValue(v: Verification): Value {
    VObject([Number(VERSION, v.header.version), Str(SITE_ID, v.header.siteId), Str(CUTOFF, v.header.cutoff),
             Number(EscrowNames.POLICY_VERSION, v.header.policyVersion), Str(PUBLIC_MANIFEST_HASH, v.header.publicManifestHash),
             Str(SCHEMA_FINGERPRINT, v.header.schemaFingerprint), Str(CONTENT_HASH, v.contentHash),
             Entry(COUNTS, VObject(CountEntries(v.counts)))])
  }

  function BindingValue(b: Binding): Value {
    VObject([Number(MANIFEST_INDEX, b.manifestIndex), Str(BATCH_RECORD_ID, b.batchRecordId)])
  }

  function BindingValues(bs: seq<Binding>): seq<Value> { seq(|bs|, i requires 0 <= i < |bs| => BindingValue(bs[i])) }

  function ArtifactValue(version: int, siteId: Text, publicManifestHash: Text, escrow: Verification, bindings: seq<Binding>): Value {
    VObject([Number(VERSION, version), Str(SITE_ID, siteId), Str(PUBLIC_MANIFEST_HASH, publicManifestHash),
             Entry(ESCROW, VerificationValue(escrow)), Entry(BINDINGS, VArray(BindingValues(bindings)))])
  }

  lemma {:induction false} IntegerItems(items: seq<Value>)
    requires forall i :: 0 <= i < |items| ==> IntegersOnly(items[i])
    ensures IntegersInItems(items)
  {
    if items != [] { IntegerItems(items[1..]); }
  }

  lemma {:induction false} IntegerEntries(entries: seq<Entry>)
    requires forall i :: 0 <= i < |entries| ==> IntegersOnly(entries[i].value)
    ensures IntegersInEntries(entries)
  {
    if entries != [] { IntegerEntries(entries[1..]); }
  }

  lemma ManifestIntegers(siteId: Text, cutoff: Text, policyVersion: int, batches: seq<PublicBatch>)
    ensures IntegersOnly(ManifestValue(siteId, cutoff, policyVersion, batches))
  {
    forall i | 0 <= i < |batches| ensures IntegersOnly(BatchValues(batches)[i]) { IntegerEntries(BatchValue(batches[i]).entries); }
    IntegerItems(BatchValues(batches));
    IntegerEntries(ManifestValue(siteId, cutoff, policyVersion, batches).entries);
  }

  lemma ArtifactIntegers(version: int, siteId: Text, publicManifestHash: Text, escrow: Verification, bindings: seq<Binding>)
    ensures IntegersOnly(ArtifactValue(version, siteId, publicManifestHash, escrow, bindings))
  {
    forall i | 0 <= i < |bindings| ensures IntegersOnly(BindingValues(bindings)[i]) { IntegerEntries(BindingValue(bindings[i]).entries); }
    IntegerItems(BindingValues(bindings));
    CountShape(escrow.counts);
    IntegerEntries(VerificationValue(escrow).entries);
    IntegerEntries(ArtifactValue(version, siteId, publicManifestHash, escrow, bindings).entries);
  }

  function ManifestHash(siteId: Text, cutoff: Text, policyVersion: int, batches: seq<PublicBatch>, digest: Digest): Text {
    ManifestIntegers(siteId, cutoff, policyVersion, batches);
    digest(CanonicalJson.CanonicalJson(ManifestValue(siteId, cutoff, policyVersion, batches)))
  }

  function ArtifactHash(version: int, siteId: Text, publicManifestHash: Text, escrow: Verification, bindings: seq<Binding>, digest: Digest): Text {
    ArtifactIntegers(version, siteId, publicManifestHash, escrow, bindings);
    digest(CanonicalJson.CanonicalJson(ArtifactValue(version, siteId, publicManifestHash, escrow, bindings)))
  }

  // ---------- the manifest

  predicate PublicBatchOk(b: PublicBatch) {
    IsNotBlank(b.batchId) && IsUtcMillis(b.createdAt) && IsCount(b.messageCount) && IsCount(b.notificationCount) && IsCount(b.errorCount)
  }

  /** `buildNewsletterRetentionManifest`. */
  function BuildManifest(siteId: Text, cutoff: Text, policyVersion: int, batches: seq<PublicBatch>, digest: Digest): Option<Manifest> {
    var _ :- Require(IsStrict(siteId));
    var _ :- Require(IsUtcMillis(cutoff));
    var _ :- Require(0 < policyVersion <= MAX_SAFE_INTEGER);
    var _ :- Require(forall i :: 0 <= i < |batches| ==> PublicBatchOk(batches[i]));
    var sorted := Sort(PublicBefore, batches);
    Some(Manifest(siteId, cutoff, policyVersion, sorted, ManifestHash(siteId, cutoff, policyVersion, sorted, digest)))
  }

  /** `normalizeManifestForApply`: the manifest is built again, and its hash must come out. */
  function NormalizeManifest(m: Manifest, digest: Digest): Option<Manifest> {
    var canonical :- BuildManifest(m.siteId, m.cutoff, m.policyVersion, m.batches, digest);
    var _ :- Require(IsHash(m.hash) && canonical.hash == m.hash);
    Some(canonical)
  }

  lemma HashesAreHashes(siteId: Text, cutoff: Text, policyVersion: int, batches: seq<PublicBatch>, digest: Digest)
    requires forall t :: IsHash(digest(t))
    ensures IsHash(ManifestHash(siteId, cutoff, policyVersion, batches, digest))
  {
    hide IsHash, CanonicalJson.CanonicalJson, ManifestValue, IntegersOnly;
    ManifestIntegers(siteId, cutoff, policyVersion, batches);
  }

  /** Building a manifest puts it into a form that building again does not change. */
  lemma NormalizeBuilt(siteId: Text, cutoff: Text, policyVersion: int, batches: seq<PublicBatch>, digest: Digest)
    requires BuildManifest(siteId, cutoff, policyVersion, batches, digest).Some? && forall t :: IsHash(digest(t))
    ensures var m := BuildManifest(siteId, cutoff, policyVersion, batches, digest).value;
            Sorted(PublicBefore, m.batches) && NormalizeManifest(m, digest) == Some(m)
  {
    hide PublicBefore, Sort, ManifestHash, PublicBatchOk, IsHash, IsUtcMillis, IsStrict;
    var sorted := Sort(PublicBefore, batches);
    HashesAreHashes(siteId, cutoff, policyVersion, sorted, digest);
    PublicBeforeIsOrder();
    SortSorted(PublicBefore, batches);
    SortOfSorted(PublicBefore, sorted);
    SameElements(sorted, batches);
    assert forall i :: 0 <= i < |sorted| ==> sorted[i] in sorted && sorted[i] in batches;
  }

  /** The manifest lists its batches by date; equal dates by batch id, and then by the counts. */
  lemma ManifestAscends(siteId: Text, cutoff: Text, policyVersion: int, batches: seq<PublicBatch>, digest: Digest, i: nat, j: nat)
    requires BuildManifest(siteId, cutoff, policyVersion, batches, digest).Some?
    requires i < j < |BuildManifest(siteId, cutoff, policyVersion, batches, digest).value.batches|
    ensures var m := BuildManifest(siteId, cutoff, policyVersion, batches, digest).value;
            var a, b := m.batches[i], m.batches[j];
            && multiset(m.batches) == multiset(batches)
            && (a.createdAt != b.createdAt ==> Less(a.createdAt, b.createdAt))
            && (a.createdAt == b.createdAt && a.batchId != b.batchId ==> Less(a.batchId, b.batchId))
            && (a.createdAt == b.createdAt && a.batchId == b.batchId ==> a.messageCount <= b.messageCount)
  {
    hide Sort, ManifestHash, PublicBatchOk, IsUtcMillis, IsStrict;
    PublicBeforeIsOrder();
    SortSorted(PublicBefore, batches);
    var bs := Sort(PublicBefore, batches);
    assert !PublicBefore(bs[j], bs[i]);
    LessTotal(bs[i].createdAt, bs[j].createdAt);
    LessTotal(bs[i].batchId, bs[j].batchId);
  }

  function TotalCounts(bs: seq<PublicBatch>): Counts {
    if bs == [] then Counts(0, 0, 0, 0)
    else
      var c, b := TotalCounts(bs[..|bs| - 1]), bs[|bs| - 1];
      Counts(c.batches + 1, c.messages + b.messageCount, c.errors + b.errorCount, c.notifications + b.notificationCount)
  }

  predicate ValidVerification(v: Verification) {
    ValidHeader(v.header) && ValidFooter(Footer(v.counts, v.contentHash))
  }

  /** `assertEscrowMatchesManifest`: a sum beyond the safe integers throws, and no valid escrow has
      such counts. */
  predicate EscrowMatches(v: Verification, m: Manifest) {
    && v.header.siteId == m.siteId && v.header.cutoff == m.cutoff && v.header.policyVersion == m.policyVersion
    && v.header.publicManifestHash == m.hash && v.counts == TotalCounts(m.batches)
  }

  // ---------- the artifact

  /** What `normalizePrivateRecord` accepts. */
  predicate PrivateRecordOk(c: Candidate) {
    && IsStrict(c.siteId) && IsStrict(c.batchRecordId) && c.batchId != [] && IsUtcMillis(c.createdAt)
    && IsCount(c.messageCount) && IsCount(c.notificationCount) && IsCount(c.errorCount) && IsCount(c.orphanCount)
  }

  /** The private record stands for the public batch of its index. */
  predicate RecordMatches(c: Candidate, b: PublicBatch, m: Manifest) {
    && c.orphanCount == 0 && c.correlationComplete && c.siteId == m.siteId
    && Publish(c) == b && Less(b.createdAt, m.cutoff)
  }

  /** What keeps a private record from standing for a public batch. */
  lemma RecordRefused(c: Candidate, b: PublicBatch, m: Manifest)
    ensures c.orphanCount != 0 || !c.correlationComplete || c.siteId != m.siteId ==> !RecordMatches(c, b, m)
    ensures c.batchId != b.batchId || c.createdAt != b.createdAt || !Less(c.createdAt, m.cutoff) ==> !RecordMatches(c, b, m)
    ensures c.messageCount != b.messageCount || c.notificationCount != b.notificationCount || c.errorCount != b.errorCount ==> !RecordMatches(c, b, m)
  {
  }

  /** What keeps an escrow from belonging to a manifest. */
  lemma EscrowRefused(v: Verification, m: Manifest)
    ensures v.header.siteId != m.siteId || v.header.cutoff != m.cutoff || v.header.policyVersion != m.policyVersion ==> !EscrowMatches(v, m)
    ensures v.header.publicManifestHash != m.hash || v.counts.batches != |m.batches| ==> !EscrowMatches(v, m)
  {
    BatchesTotal(m.batches);
  }

  lemma {:induction false} BatchesTotal(bs: seq<PublicBatch>)
    ensures TotalCounts(bs).batches == |bs|
  {
    if bs != [] { BatchesTotal(bs[..|bs| - 1]); }
  }

  function BindingsFor(cs: seq<Candidate>): seq<Binding> { seq(|cs|, i requires 0 <= i < |cs| => Binding(i, cs[i].batchRecordId)) }

  ghost predicate RecordsMatch(cs: seq<Candidate>, m: Manifest)
    requires |cs| <= |m.batches|
  {
    && (forall i :: 0 <= i < |cs| ==> RecordMatches(cs[i], m.batches[i], m))
    && NoDuplicates(RecordIds(cs))
  }

  /** When the artifact builder does not throw. */
  ghost predicate ArtifactBuildable(manifest: Manifest, escrow: Verification, cs: seq<Candidate>, digest: Digest) {
    && (forall i :: 0 <= i < |cs| ==> PrivateRecordOk(cs[i]))
    && NormalizeManifest(manifest, digest).Some?
    && var m := NormalizeManifest(manifest, digest).value;
       && ValidVerification(escrow) && EscrowMatches(escrow, m)
       && cs != [] && |cs| == |m.batches| && RecordsMatch(cs, m)
  }

  function ArtifactFor(siteId: Text, publicManifestHash: Text, escrow: Verification, cs: seq<Candidate>, digest: Digest): Artifact {
    var bindings := BindingsFor(cs);
    Artifact(ARTIFACT_VERSION, siteId, publicManifestHash, escrow, bindings,
             ArtifactHash(ARTIFACT_VERSION, siteId, publicManifestHash, escrow, bindings, digest))
  }

  lemma RecordsMatchSnoc(cs: seq<Candidate>, n: nat, m: Manifest)
    requires n < |cs| <= |m.batches|
    ensures RecordsMatch(cs[..n + 1], m) <==>
            RecordsMatch(cs[..n], m) && RecordMatches(cs[n], m.batches[n], m) && cs[n].batchRecordId !in RecordIds(cs[..n])
    ensures BindingsFor(cs[..n + 1]) == BindingsFor(cs[..n]) + [Binding(n, cs[n].batchRecordId)]
    ensures RecordIds(cs[..n + 1]) == RecordIds(cs[..n]) + [cs[n].batchRecordId]
  {
    hide RecordMatches;
    var ids, more := RecordIds(cs[..n]), RecordIds(cs[..n + 1]);
    assert more == ids + [cs[n].batchRecordId];
    if NoDuplicates(more) {
      assert forall i :: 0 <= i < n ==> ids[i] == more[i] && more[i] != more[n];
    }
  }

  lemma RecordsMatchPrefix(cs: seq<Candidate>, n: nat, m: Manifest)
    requires n <= |cs| <= |m.batches| && RecordsMatch(cs, m)
    ensures RecordsMatch(cs[..n], m)
  {
    hide RecordMatches;
    assert forall i :: 0 <= i < n ==> RecordIds(cs[..n])[i] == RecordIds(cs)[i];
  }

  /** `buildNewsletterRetentionApplyArtifact`. */
  method BuildArtifact(manifest: Manifest, escrow: Verification, cs: seq<Candidate>, digest: Digest) returns (r: Option<Artifact>)
    ensures r.Some? <==> ArtifactBuildable(manifest, escrow, cs, digest)
    ensures r.Some? ==> var m := NormalizeManifest(manifest, digest).value; r.value == ArtifactFor(m.siteId, m.hash, escrow, cs, digest)
  {
    hide NormalizeManifest, ValidVerification, EscrowMatches, PrivateRecordOk, RecordMatches, RecordsMatch, ArtifactHash, RecordIds, BindingsFor;
    if exists i :: 0 <= i < |cs| && !PrivateRecordOk(cs[i]) { return None; }
    var canonical := NormalizeManifest(manifest, digest);
    if canonical.None? || !ValidVerification(escrow) || !EscrowMatches(escrow, canonical.value) { return None; }
    var m := canonical.value;
    if cs == [] || |cs| != |m.batches| { return None; }
    var seen: set<Text> := {};
    var bindings: seq<Binding> := [];
    var i := 0;
    NoRecords(cs, m);
    while i < |cs|
      invariant 0 <= i <= |cs| && RecordsMatch(cs[..i], m)
      invariant bindings == BindingsFor(cs[..i]) && forall x :: x in seen <==> x in RecordIds(cs[..i])
    {
      RecordsMatchSnoc(cs, i, m);
      if RecordsMatch(cs, m) { RecordsMatchPrefix(cs, i + 1, m); }
      if !RecordMatches(cs[i], m.batches[i], m) || cs[i].batchRecordId in seen { return None; }
      seen := seen + {cs[i].batchRecordId};
      bindings := bindings + [Binding(i, cs[i].batchRecordId)];
      i := i + 1;
    }
    assert cs[..i] == cs;
    r := Some(Artifact(ARTIFACT_VERSION, m.siteId, m.hash, escrow, bindings,
                       ArtifactHash(ARTIFACT_VERSION, m.siteId, m.hash, escrow, bindings, digest)));
  }

  lemma NoRecords(cs: seq<Candidate>, m: Manifest)
    ensures RecordsMatch(cs[..0], m) && BindingsFor(cs[..0]) == [] && RecordIds(cs[..0]) == []
  {
  }

  // ---------- the apply context

  predicate BindingOk(b: Binding, index: int) { IsCount(b.manifestIndex) && b.manifestIndex == index && IsStrict(b.batchRecordId) }

  ghost predicate BindingsOk(bs: seq<Binding>) {
    && bs != [] && (forall i :: 0 <= i < |bs| ==> BindingOk(bs[i], i))
    && forall i, j :: 0 <= i < j < |bs| ==> bs[i].batchRecordId != bs[j].batchRecordId
  }

  /** `normalizeApplyArtifactBindings`. */
  method NormalizeBindings(bs: seq<Binding>) returns (ok: bool)
    ensures ok <==> BindingsOk(bs)
  {
    hide IsStrict;
    if bs == [] { return false; }
    var seenIndexes: set<int>, seenRecordIds: set<Text> := {}, {};
    var i := 0;
    while i < |bs|
      invariant 0 <= i <= |bs|
      invariant forall k :: 0 <= k < i ==> BindingOk(bs[k], k) && bs[k].batchRecordId in seenRecordIds
      invariant forall x :: x in seenIndexes ==> 0 <= x < i
      invariant forall x :: x in seenRecordIds ==> exists k :: 0 <= k < i && bs[k].batchRecordId == x
      invariant forall j, k :: 0 <= j < k < i ==> bs[j].batchRecordId != bs[k].batchRecordId
    {
      if !BindingOk(bs[i], i) || bs[i].manifestIndex in seenIndexes || bs[i].batchRecordId in seenRecordIds { return false; }
      seenIndexes, seenRecordIds := seenIndexes + {bs[i].manifestIndex}, seenRecordIds + {bs[i].batchRecordId};
      i := i + 1;
    }
    ok := true;
  }

  /** When `parseNewsletterRetentionApplyArtifact` accepts. */
  ghost predicate ArtifactParses(a: Artifact, digest: Digest) {
    && a.version == ARTIFACT_VERSION && IsStrict(a.siteId) && IsHash(a.publicManifestHash) && ValidVerification(a.escrow)
    && BindingsOk(a.bindings) && IsHash(a.hash)
    && ArtifactHash(a.version, a.siteId, a.publicManifestHash, a.escrow, a.bindings, digest) == a.hash
  }

  method ParseArtifact(a: Artifact, digest: Digest) returns (ok: bool)
    ensures ok <==> ArtifactParses(a, digest)
  {
    hide ArtifactHash, IsHash, IsStrict, ValidVerification, BindingsOk;
    if a.version != ARTIFACT_VERSION || !IsStrict(a.siteId) || !IsHash(a.publicManifestHash) || !ValidVerification(a.escrow) { return false; }
    ok := NormalizeBindings(a.bindings);
    if !ok { return; }
    ok := IsHash(a.hash) && ArtifactHash(a.version, a.siteId, a.publicManifestHash, a.escrow, a.bindings, digest) == a.hash;
  }

  const MAX_BACKUP_RESTORE_AGE_MS: int := 24 * 60 * 60_000
  const MAX_HEALTH_AGE_MS: int := 15 * 60_000

  /** The evidence, its timestamps read as milliseconds. */
  datatype Evidence = Evidence(
    now: int, backupVerifiedAt: int, backupRestoredAt: int, restoreVerifiedAt: int, restoreRestoredAt: int,
    queueCheckedAt: int, proxyCheckedAt: int, queueHealthy: bool, proxyHealthy: bool)

  predicate Recent(at: int, now: int, maxAge: int) { at <= now && now - at <= maxAge }

  /** When `parseNewsletterRetentionEvidence` accepts. */
  predicate EvidenceOk(e: Evidence) {
    && e.queueHealthy && e.proxyHealthy
    && Recent(e.backupVerifiedAt, e.now, MAX_BACKUP_RESTORE_AGE_MS) && Recent(e.backupRestoredAt, e.now, MAX_BACKUP_RESTORE_AGE_MS)
    && Recent(e.restoreVerifiedAt, e.now, MAX_BACKUP_RESTORE_AGE_MS) && Recent(e.restoreRestoredAt, e.now, MAX_BACKUP_RESTORE_AGE_MS)
    && Recent(e.queueCheckedAt, e.now, MAX_HEALTH_AGE_MS) && Recent(e.proxyCheckedAt, e.now, MAX_HEALTH_AGE_MS)
  }

  /** Evidence is taken exactly while both checks say healthy, backup and restore are at most 24 hours
      old, the checks at most 15 minutes, and nothing lies in the future. */
  lemma EvidenceExactly(e: Evidence)
    ensures EvidenceOk(e) <==>
            && e.queueHealthy && e.proxyHealthy
            && 0 <= e.now - e.backupVerifiedAt <= 86_400_000 && 0 <= e.now - e.backupRestoredAt <= 86_400_000
            && 0 <= e.now - e.restoreVerifiedAt <= 86_400_000 && 0 <= e.now - e.restoreRestoredAt <= 86_400_000
            && 0 <= e.now - e.queueCheckedAt <= 900_000 && 0 <= e.now - e.proxyCheckedAt <= 900_000
  {
  }

  datatype Context = Context(policy: Policy, evidence: Evidence, manifest: Manifest, artifact: Artifact)

  /** When `parseNewsletterRetentionApplyContext` accepts, and what it returns. */
  ghost predicate ContextParses(input: PolicyInput, e: Evidence, m: Manifest, a: Artifact, c: Context, digest: Digest) {
    && ParsePolicy(input) == Some(c.policy) && !c.policy.dryRun
    && EvidenceOk(e) && c.evidence == e
    && NormalizeManifest(m, digest) == Some(c.manifest)
    && c.manifest.siteId == c.policy.siteId && c.manifest.cutoff == c.policy.cutoff && c.manifest.policyVersion == c.policy.policyVersion
    && ArtifactParses(a, digest) && c.artifact == a
    && a.siteId == c.manifest.siteId && a.publicManifestHash == c.manifest.hash && EscrowMatches(a.escrow, c.manifest)
    && |a.bindings| == |c.manifest.batches|
    && |c.manifest.batches| <= c.policy.maxBatches && TotalCounts(c.manifest.batches).messages <= c.policy.maxMessages
  }

  method ParseContext(input: PolicyInput, e: Evidence, m: Manifest, a: Artifact, digest: Digest) returns (r: Option<Context>)
    ensures r.Some? ==> ContextParses(input, e, m, a, r.value, digest)
    ensures r.None? ==> forall c :: !ContextParses(input, e, m, a, c, digest)
  {
    hide ParsePolicy, NormalizeManifest, ArtifactParses, EvidenceOk, TotalCounts;
    var policy := ParsePolicy(input);
    if policy.None? || policy.value.dryRun || !EvidenceOk(e) { return None; }
    var p := policy.value;
    var canonical := NormalizeManifest(m, digest);
    if canonical.None? { return None; }
    var cm := canonical.value;
    if cm.siteId != p.siteId || cm.cutoff != p.cutoff || cm.policyVersion != p.policyVersion { return None; }
    var ok := ParseArtifact(a, digest);
    if !ok || a.siteId != cm.siteId || a.publicManifestHash != cm.hash || !EscrowMatches(a.escrow, cm) { return None; }
    BindingIndexes(a, digest);
    if a.bindings == [] || |a.bindings| != |cm.batches| { return None; }
    if !forall i :: 0 <= i < |a.bindings| ==> 0 <= a.bindings[i].manifestIndex < |cm.batches| { return None; }
    if |cm.batches| > p.maxBatches || TotalCounts(cm.batches).messages > p.maxMessages { return None; }
    r := Some(Context(p, e, cm, a));
  }

  lemma BindingIndexes(a: Artifact, digest: Digest)
    requires ArtifactParses(a, digest)
    ensures a.bindings != [] && forall i :: 0 <= i < |a.bindings| ==> a.bindings[i].manifestIndex == i
  {
    hide ArtifactHash;
  }
}
