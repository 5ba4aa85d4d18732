/** What the hashes of manifest and artifact commit to: the canonical text of a manifest, or of an
    artifact, determines every field of it. */
module RetentionCommitment {
  import opened Utf16
  import opened Options
  import opened JsonGrammar
  import StableSort
  import opened JsonValue
  import opened CanonicalJson
  import opened EscrowNames
  import opened EscrowRecords
  import opened EscrowCodec
  import opened EscrowStages
  import opened RetentionPolicy
  import opened RetentionApply

  lemma SameAt(e: seq<Entry>, f: seq<Entry>, i: nat)
    requires SameUpToOrder(VObject(e), VObject(f)) && i < |e| == |f| && Distinct(Keys(f)) && e[i].key == f[i].key
    ensures SameUpToOrder(e[i].value, f[i].value)
  {
    LookupAt(f, i);
  }

  lemma {:induction false} DistinctItems(items: seq<Value>)
    requires forall i :: 0 <= i < |items| ==> DistinctKeys(items[i])
    ensures DistinctInItems(items)
  {
    if items != [] { DistinctItems(items[1..]); }
  }

  // ---------- batches and the manifest

  lemma BatchShape(b: PublicBatch)
    ensures DistinctKeys(BatchValue(b)) && Distinct(Keys(BatchValue(b).entries))
  {
    ScalarEntries(BatchValue(b).entries);
    ApartKeys(BatchValue(b).entries);
  }

  lemma SameBatch(a: PublicBatch, b: PublicBatch)
    requires SameUpToOrder(BatchValue(a), BatchValue(b))
    ensures a == b
  {
    hide SameUpToOrder, Distinct;
    var e, f := BatchValue(a).entries, BatchValue(b).entries;
    BatchShape(b);
    SameAt(e, f, 0);
    SameAt(e, f, 1);
    SameAt(e, f, 2);
    SameAt(e, f, 3);
    SameAt(e, f, 4);
    SameScalars(e, f);
  }

  /** Scalars are the same only when they are equal. */
  lemma SameScalars(e: seq<Entry>, f: seq<Entry>)
    requires |e| == |f|
    ensures forall i :: 0 <= i < |e| && IsScalar(e[i].value) && SameUpToOrder(e[i].value, f[i].value) ==> e[i].value == f[i].value
  {
  }

  lemma ManifestShape(siteId: Text, cutoff: Text, policyVersion: int, batches: seq<PublicBatch>)
    ensures var v := ManifestValue(siteId, cutoff, policyVersion, batches);
            DistinctKeys(v) && Distinct(Keys(v.entries))
  {
    var e := ManifestValue(siteId, cutoff, policyVersion, batches).entries;
    forall i | 0 <= i < |batches| ensures DistinctKeys(BatchValues(batches)[i]) { BatchShape(batches[i]); }
    DistinctItems(BatchValues(batches));
    ManifestIntegers(siteId, cutoff, policyVersion, batches);
    forall i | 0 <= i < |batches| ensures IntegersOnly(BatchValues(batches)[i]) { IntegerEntries(BatchValue(batches[i]).entries); }
    IntegerItems(BatchValues(batches));
    ObjectEntries(e);
    ApartKeys(e);
  }

  lemma SameBatches(a: seq<PublicBatch>, b: seq<PublicBatch>)
    requires SameUpToOrder(VArray(BatchValues(a)), VArray(BatchValues(b)))
    ensures a == b
  {
    assert |a| == |b|;
    forall i | 0 <= i < |a|
      ensures a[i] == b[i]
    {
      assert SameUpToOrder(BatchValues(a)[i], BatchValues(b)[i]);
      SameBatch(a[i], b[i]);
    }
  }

  lemma SameManifest(a: Manifest, b: Manifest)
    requires SameUpToOrder(ManifestValue(a.siteId, a.cutoff, a.policyVersion, a.batches), ManifestValue(b.siteId, b.cutoff, b.policyVersion, b.batches))
    ensures a.siteId == b.siteId && a.cutoff == b.cutoff && a.policyVersion == b.policyVersion && a.batches == b.batches
  {
    hide SameUpToOrder, Distinct, BatchValues;
    var e, f := ManifestValue(a.siteId, a.cutoff, a.policyVersion, a.batches).entries, ManifestValue(b.siteId, b.cutoff, b.policyVersion, b.batches).entries;
    ManifestShape(b.siteId, b.cutoff, b.policyVersion, b.batches);
    SameAt(e, f, 0);
    SameAt(e, f, 1);
    SameAt(e, f, 2);
    SameAt(e, f, 3);
    SameScalars(e, f);
    SameBatches(a.batches, b.batches);
  }

  function ManifestText(m: Manifest): Text {
    ManifestIntegers(m.siteId, m.cutoff, m.policyVersion, m.batches);
    CanonicalJson.CanonicalJson(ManifestValue(m.siteId, m.cutoff, m.policyVersion, m.batches))
  }

  /** Equal texts under the hash are equal manifests. */
  lemma ManifestTextInjective(a: Manifest, b: Manifest)
    requires ManifestText(a) == ManifestText(b)
    ensures a.siteId == b.siteId && a.cutoff == b.cutoff && a.policyVersion == b.policyVersion && a.batches == b.batches
  {
    hide SameUpToOrder, ManifestValue, CanonicalJson.CanonicalJson;
    ManifestIntegers(a.siteId, a.cutoff, a.policyVersion, a.batches);
    ManifestIntegers(b.siteId, b.cutoff, b.policyVersion, b.batches);
    ManifestShape(a.siteId, a.cutoff, a.policyVersion, a.batches);
    ManifestShape(b.siteId, b.cutoff, b.policyVersion, b.batches);
    CanonicalJsonInjective(ManifestValue(a.siteId, a.cutoff, a.policyVersion, a.batches), ManifestValue(b.siteId, b.cutoff, b.policyVersion, b.batches));
    SameManifest(a, b);
  }

  // ---------- the artifact

  lemma CutoffIsNotCounts()
    ensures CUTOFF != COUNTS
  {
    assert CUTOFF[1] != COUNTS[1];
  }

  lemma VerificationKeys(v: Verification)
    ensures Distinct(Keys(VerificationValue(v).entries))
  {
    hide CountEntries, IntegersInEntries, DistinctInEntries;
    var e := VerificationValue(v).entries;
    CutoffIsNotCounts();
    forall i, j | 0 <= i < j < |e|
      ensures Keys(e)[i] != Keys(e)[j]
    {
      assert Apart(e[i].key, e[j].key) || (e[i].key == CUTOFF && e[j].key == COUNTS);
    }
  }

  lemma VerificationShape(v: Verification)
    ensures DistinctKeys(VerificationValue(v)) && Distinct(Keys(VerificationValue(v).entries))
  {
    hide CountEntries, IntegersInEntries, DistinctInEntries, Distinct, Keys;
    var e := VerificationValue(v).entries;
    CountShape(v.counts);
    ObjectValue(CountEntries(v.counts));
    ObjectEntries(e);
    VerificationKeys(v);
  }

  lemma SameCounts(a: Counts, b: Counts)
    requires SameUpToOrder(VObject(CountEntries(a)), VObject(CountEntries(b)))
    ensures a == b
  {
    hide SameUpToOrder, Distinct;
    var e, f := CountEntries(a), CountEntries(b);
    CountShape(b);
    SameAt(e, f, 0);
    SameAt(e, f, 1);
    SameAt(e, f, 2);
    SameAt(e, f, 3);
    SameScalars(e, f);
  }

  lemma SameVerification(a: Verification, b: Verification)
    requires SameUpToOrder(VerificationValue(a), VerificationValue(b))
    ensures a == b
  {
    hide SameUpToOrder, Distinct, CountEntries, DistinctKeys, Keys;
    var e, f := VerificationValue(a).entries, VerificationValue(b).entries;
    VerificationShape(b);
    SameAt(e, f, 0);
    SameAt(e, f, 1);
    SameAt(e, f, 2);
    SameAt(e, f, 3);
    SameAt(e, f, 4);
    SameAt(e, f, 5);
    SameAt(e, f, 6);
    SameAt(e, f, 7);
    SameScalars(e, f);
    SameCounts(a.counts, b.counts);
  }

  lemma BindingShape(b: Binding)
    ensures DistinctKeys(BindingValue(b)) && Distinct(Keys(BindingValue(b).entries)) && IntegersOnly(BindingValue(b))
  {
    ScalarEntries(BindingValue(b).entries);
    ApartKeys(BindingValue(b).entries);
  }

  lemma SameBindings(a: seq<Binding>, b: seq<Binding>)
    requires SameUpToOrder(VArray(BindingValues(a)), VArray(BindingValues(b)))
    ensures a == b
  {
    assert |a| == |b|;
    forall i | 0 <= i < |a|
      ensures a[i] == b[i]
    {
      assert SameUpToOrder(BindingValues(a)[i], BindingValues(b)[i]);
      SameBinding(a[i], b[i]);
    }
  }

  lemma SameBinding(a: Binding, b: Binding)
    requires SameUpToOrder(BindingValue(a), BindingValue(b))
    ensures a == b
  {
    hide SameUpToOrder, Distinct;
    var e, f := BindingValue(a).entries, BindingValue(b).entries;
    BindingShape(b);
    SameAt(e, f, 0);
    SameAt(e, f, 1);
    SameScalars(e, f);
  }

  function ValueOf(a: Artifact): Value { ArtifactValue(a.version, a.siteId, a.publicManifestHash, a.escrow, a.bindings) }

  lemma VerificationIntegers(v: Verification)
    ensures IntegersOnly(VerificationValue(v))
  {
    CountShape(v.counts);
    IntegerEntries(VerificationValue(v).entries);
  }

  lemma ArtifactShape(a: Artifact)
    ensures DistinctKeys(ValueOf(a)) && Distinct(Keys(ValueOf(a).entries))
  {
    hide VerificationValue, BindingValue;
    var e := ValueOf(a).entries;
    forall i | 0 <= i < |a.bindings|
      ensures DistinctKeys(BindingValues(a.bindings)[i]) && IntegersOnly(BindingValues(a.bindings)[i])
    {
      BindingShape(a.bindings[i]);
    }
    DistinctItems(BindingValues(a.bindings));
    IntegerItems(BindingValues(a.bindings));
    VerificationShape(a.escrow);
    VerificationIntegers(a.escrow);
    ObjectEntries(e);
    ApartKeys(e);
  }

  lemma SameArtifact(a: Artifact, b: Artifact)
    requires SameUpToOrder(ValueOf(a), ValueOf(b))
    ensures a.(hash := b.hash) == b
  {
    hide SameUpToOrder, Distinct, BindingValues, VerificationValue;
    var e, f := ValueOf(a).entries, ValueOf(b).entries;
    ArtifactShape(b);
    SameAt(e, f, 0);
    SameAt(e, f, 1);
    SameAt(e, f, 2);
    SameAt(e, f, 3);
    SameAt(e, f, 4);
    SameScalars(e, f);
    SameVerification(a.escrow, b.escrow);
    SameBindings(a.bindings, b.bindings);
  }

  function ArtifactText(a: Artifact): Text {
    ArtifactIntegers(a.version, a.siteId, a.publicManifestHash, a.escrow, a.bindings);
    CanonicalJson.CanonicalJson(ValueOf(a))
  }

  lemma ArtifactTextInjective(a: Artifact, b: Artifact)
    requires ArtifactText(a) == ArtifactText(b)
    ensures a.(hash := b.hash) == b
  {
    hide SameUpToOrder, ArtifactValue, CanonicalJson.CanonicalJson;
    ArtifactIntegers(a.version, a.siteId, a.publicManifestHash, a.escrow, a.bindings);
    ArtifactIntegers(b.version, b.siteId, b.publicManifestHash, b.escrow, b.bindings);
    ArtifactShape(a);
    ArtifactShape(b);
    CanonicalJsonInjective(ValueOf(a), ValueOf(b));
    SameArtifact(a, b);
  }

  /** Apply accepts, under the hashes that a dry run issued, only the manifest and the artifact of
      that dry run, unless the hash function collides on their texts. */
  lemma OnlyTheIssuedOutput(input: PolicyInput, e: Evidence, m: Manifest, a: Artifact, c: Context, issued: Manifest, own: Artifact, digest: Digest)
    requires ContextParses(input, e, m, a, c, digest)
    requires issued.hash == digest(ManifestText(issued)) && own.hash == digest(ArtifactText(own))
    requires m.hash == issued.hash && a.hash == own.hash
    requires digest(ManifestText(c.manifest)) == digest(ManifestText(issued)) ==> ManifestText(c.manifest) == ManifestText(issued)
    requires digest(ArtifactText(a)) == digest(ArtifactText(own)) ==> ArtifactText(a) == ArtifactText(own)
    ensures c.manifest == issued && c.artifact == own
  {
    hide ManifestText, ArtifactText, EscrowMatches, TotalCounts, ValidVerification, BindingsOk, EvidenceOk, ParsePolicy, IsHash, NormalizeManifest;
    HashOfNormalized(m, c.manifest, digest);
    HashOfArtifact(a, digest);
    ManifestTextInjective(c.manifest, issued);
    ArtifactTextInjective(a, own);
  }

  lemma HashOfNormalized(m: Manifest, c: Manifest, digest: Digest)
    requires NormalizeManifest(m, digest) == Some(c)
    ensures c.hash == m.hash == digest(ManifestText(c))
  {
    hide CanonicalJson.CanonicalJson, ManifestValue, StableSort.Sort, PublicBefore, PublicBatchOk, IsHash, IsStrict, IsUtcMillis;
  }

  lemma HashOfArtifact(a: Artifact, digest: Digest)
    requires ArtifactParses(a, digest)
    ensures a.hash == digest(ArtifactText(a))
  {
    hide CanonicalJson.CanonicalJson, ArtifactValue, BindingsOk, ValidVerification, IsHash, IsStrict;
  }
}
