/** The dry run: candidates are loaded, planned, put into a manifest and an escrow, and bound in an
    artifact. What it puts out is accepted by apply. */
module RetentionDryRun {
  import opened Utf16
  import opened Options
  import opened StableSort
  import opened Utf8
  import opened EscrowRecords
  import opened EscrowGroups
  import opened EscrowStages
  import opened EscrowAccumulator
  import opened EscrowWriter
  import opened RetentionPolicy
  import opened RetentionApply
  import opened EscrowLoader
  import opened EscrowStream
  import opened RetentionCandidates

  // ---------- the plan

  datatype Plan = Plan(siteId: Text, cutoff: Text, totals: Counts, batches: seq<PublicBatch>)

  predicate SelectionOk(c: Candidate, p: Policy) {
    && c.siteId == p.siteId && c.batchId != [] && IsUtcMillis(c.createdAt) && Less(c.createdAt, p.cutoff)
    && IsCount(c.messageCount) && IsCount(c.notificationCount) && IsCount(c.errorCount) && IsCount(c.orphanCount)
    && c.correlationComplete && c.orphanCount == 0
  }

  /** What keeps a candidate out of the plan. */
  lemma SelectionRefused(c: Candidate, p: Policy)
    ensures c.siteId != p.siteId || !Less(c.createdAt, p.cutoff) || !IsUtcMillis(c.createdAt) || c.batchId == [] ==> !SelectionOk(c, p)
    ensures c.orphanCount != 0 || !c.correlationComplete ==> !SelectionOk(c, p)
    ensures c.messageCount < 0 || c.notificationCount < 0 || c.errorCount < 0 ==> !SelectionOk(c, p)
    ensures c.messageCount > 9007199254740991 || c.notificationCount > 9007199254740991 || c.errorCount > 9007199254740991 ==> !SelectionOk(c, p)
  {
  }

  function Published(cs: seq<Candidate>): seq<PublicBatch> { seq(|cs|, i requires 0 <= i < |cs| => Publish(cs[i])) }

  /** `buildNewsletterRetentionSelectionPlan`, for a parsed policy. A sum beyond the safe integers throws. */
  function BuildPlan(p: Policy, e: Evidence, queueHealthy: bool, dlqHealthy: bool, cs: seq<Candidate>): Option<Plan> {
    var _ :- Require(EvidenceOk(e) && queueHealthy && dlqHealthy);
    var _ :- Require(forall i :: 0 <= i < |cs| ==> SelectionOk(cs[i], p));
    var selected := Sort(PublicBefore, Published(cs));
    var _ :- Require(|selected| <= p.maxBatches);
    var totals := TotalCounts(selected);
    var _ :- Require(totals.messages <= MAX_SAFE_INTEGER && totals.notifications <= MAX_SAFE_INTEGER && totals.errors <= MAX_SAFE_INTEGER);
    var _ :- Require(totals.messages <= p.maxMessages);
    Some(Plan(p.siteId, p.cutoff, totals, selected))
  }

  /** What the loaders' order means for the public order: the tie-break is invisible there. */
  lemma PublishedSorted(cs: seq<Candidate>)
    requires Sorted(CandidateBefore, cs)
    ensures Sorted(PublicBefore, Published(cs))
  {
    forall i, j | 0 <= i < j < |cs|
      ensures !PublicBefore(Published(cs)[j], Published(cs)[i])
    {
      PublicOrder(Publish(cs[j]), Publish(cs[i]), Publish(cs[j]));
      assert !CandidateBefore(cs[j], cs[i]);
    }
  }

  // ---------- the coordinator

  predicate EscrowMatchesPlan(v: Verification, plan: Plan, m: Manifest) {
    && v.header.siteId == plan.siteId && v.header.cutoff == plan.cutoff && v.header.policyVersion == m.policyVersion
    && v.header.publicManifestHash == m.hash
    && v.counts == Counts(|plan.batches|, plan.totals.messages, plan.totals.errors, plan.totals.notifications)
  }

  datatype DryRunResult = DryRunResult(plan: Plan, manifest: Manifest, escrow: Verification)

  function HeaderFor(p: Policy, m: Manifest, schemaFingerprint: Text): Header {
    Header(ESCROW_VERSION, p.siteId, p.cutoff, p.policyVersion, m.hash, schemaFingerprint)
  }

  /** What the work under the lock produces: this result, with these groups in the escrow. */
  ghost predicate Produced(p: Policy, e: Evidence, candidates: seq<Candidate>, d: Delegate, schemaFingerprint: Text,
                           r: DryRunResult, groups: seq<Group>, digest: Digest)
  {
    && BuildPlan(p, e, true, true, candidates) == Some(r.plan)
    && BuildManifest(p.siteId, r.plan.cutoff, p.policyVersion, r.plan.batches, digest) == Some(r.manifest)
    && LoadsAs(d, AsInput(p), candidates, groups)
    && Writable(HeaderFor(p, r.manifest, schemaFingerprint), Flatten(groups), digest)
    && r.escrow == ResultFor(HeaderFor(p, r.manifest, schemaFingerprint), Flatten(groups), digest)
    && EscrowMatchesPlan(r.escrow, r.plan, r.manifest)
  }

  /** A coordinated run with this result and these groups in the escrow. */
  ghost predicate Coordinated(input: PolicyInput, e: Evidence, candidates: seq<Candidate>, d: Delegate, schemaFingerprint: Text,
                              r: DryRunResult, groups: seq<Group>, digest: Digest)
  {
    !input.apply && ParsePolicy(input).Some? && Produced(ParsePolicy(input).value, e, candidates, d, schemaFingerprint, r, groups, digest)
  }

  /** The process-local locks: the token of the holder of each name. */
  class HeldLocks {
    var tokens: map<Text, nat>
    var issued: nat

    constructor ()
      ensures tokens == map[]
    {
      tokens, issued := map[], 0;
    }

    /** The token of a new lock object, which no other lock object has. */
    method OwnerToken() returns (token: nat)
      modifies this`issued
      ensures token == old(issued) < issued
    {
      token := issued;
      issued := issued + 1;
    }

    method TryAcquire(name: Text, token: nat) returns (ok: bool)
      modifies this`tokens
      ensures ok <==> name !in old(tokens)
      ensures tokens == if ok then old(tokens)[name := token] else old(tokens)
    {
      if name in tokens { return false; }
      tokens := tokens[name := token];
      ok := true;
    }

    /** Only the holder can give a name back. */
    method Release(name: Text, token: nat) returns (ok: bool)
      modifies this`tokens
      ensures ok <==> name in old(tokens) && old(tokens)[name] == token
      ensures tokens == if ok then old(tokens) - {name} else old(tokens)
    {
      if name !in tokens || tokens[name] != token { return false; }
      tokens := tokens - {name};
      ok := true;
    }
  }

  /** `buildNewsletterRetentionEscrowDryRunResult`. The lock is free again at the end, whatever happens. */
  method CoordinateEscrowDryRun(input: PolicyInput, e: Evidence, queueHealthy: bool, dlqHealthy: bool, candidates: seq<Candidate>,
                                d: Delegate, schemaFingerprint: Text, sink: Sink, locks: HeldLocks, digest: Digest)
    returns (r: Option<DryRunResult>, ghost groups: seq<Group>)
    requires forall t :: IsHash(digest(t))
    requires sink.chunks == []
    modifies sink, locks
    ensures locks.tokens == old(locks.tokens)
    ensures r.Some? ==> queueHealthy && dlqHealthy && EvidenceOk(e) && Coordinated(input, e, candidates, d, schemaFingerprint, r.value, groups, digest)
    ensures r.Some? ==> sink.chunks == ChunksOf(FileLines(HeaderFor(ParsePolicy(input).value, r.value.manifest, schemaFingerprint), Flatten(groups), digest))
    ensures r.Some? ==> |Flatten(groups)| + 2 <= sink.capacity
    ensures r.None? && queueHealthy && dlqHealthy && EvidenceOk(e) && input.siteId !in locks.tokens ==>
            forall other, gs :: Coordinated(input, e, candidates, d, schemaFingerprint, other, gs, digest) ==> |Flatten(gs)| + 2 > sink.capacity
  {
    hide Produced, FileLines, ChunksOf, Flatten, GroupsOk, IsHash;
    r, groups := None, [];
    if input.apply { return; }
    var policy := ParsePolicy(input);
    if policy.None? || !EvidenceOk(e) { return; }
    var p := policy.value;
    var token := locks.OwnerToken();
    var acquired := locks.TryAcquire(p.siteId, token);
    if !acquired { return; }
    r, groups := WriteUnderLock(p, e, queueHealthy, dlqHealthy, candidates, d, schemaFingerprint, sink, digest);
    var released := locks.Release(p.siteId, token);
    assert old(locks.tokens)[p.siteId := token] - {p.siteId} == old(locks.tokens);
  }

  /** The work done while the lock is held. */
  method WriteUnderLock(p: Policy, e: Evidence, queueHealthy: bool, dlqHealthy: bool, candidates: seq<Candidate>,
                        d: Delegate, schemaFingerprint: Text, sink: Sink, digest: Digest)
    returns (r: Option<DryRunResult>, ghost groups: seq<Group>)
    requires forall t :: IsHash(digest(t))
    requires sink.chunks == []
    modifies sink
    ensures r.Some? ==> queueHealthy && dlqHealthy && Produced(p, e, candidates, d, schemaFingerprint, r.value, groups, digest)
    ensures r.Some? ==> sink.chunks == ChunksOf(FileLines(HeaderFor(p, r.value.manifest, schemaFingerprint), Flatten(groups), digest))
    ensures r.Some? ==> |Flatten(groups)| + 2 <= sink.capacity
    ensures r.None? && queueHealthy && dlqHealthy ==>
            forall other, gs :: Produced(p, e, candidates, d, schemaFingerprint, other, gs, digest) ==> |Flatten(gs)| + 2 > sink.capacity
  {
    hide LoadsAs, Writable, ResultFor, FileLines, ChunksOf, Flatten, GroupsOk, EscrowMatchesPlan, BuildManifest, IsHash, ParsePolicy;
    r, groups := None, [];
    NoPlanUnlessHealthy(p, e, queueHealthy, dlqHealthy, candidates);
    var plan := BuildPlan(p, e, queueHealthy, dlqHealthy, candidates);
    if plan.None? { return; }
    var manifest := BuildManifest(p.siteId, plan.value.cutoff, p.policyVersion, plan.value.batches, digest);
    if manifest.None? { return; }
    var records, ends, loaded := StreamRecords(d, AsInput(p), candidates);
    groups := loaded;
    if ends { LoadedOnce(d, AsInput(p), candidates, groups); }
    var escrow := WriteEscrow(HeaderFor(p, manifest.value, schemaFingerprint), records, ends, sink, digest);
    if escrow.None? { return; }
    if !EscrowMatchesPlan(escrow.value, plan.value, manifest.value) { return; }
    r := Some(DryRunResult(plan.value, manifest.value, escrow.value));
  }

  lemma LoadedOnce(d: Delegate, input: PolicyInput, candidates: seq<Candidate>, groups: seq<Group>)
    requires LoadsAs(d, input, candidates, groups)
    ensures forall gs :: LoadsAs(d, input, candidates, gs) ==> gs == groups
  {
    hide Snapshot, CandidatesOk, ParsePolicy, Sort, CandidateBefore;
    forall gs | LoadsAs(d, input, candidates, gs)
      ensures gs == groups
    {
      SnapshotUnique(d, Sort(CandidateBefore, candidates), gs, groups, ParsePolicy(input).value);
    }
  }

  lemma NoPlanUnlessHealthy(p: Policy, e: Evidence, queueHealthy: bool, dlqHealthy: bool, cs: seq<Candidate>)
    ensures BuildPlan(p, e, queueHealthy, dlqHealthy, cs).Some? ==> queueHealthy && dlqHealthy
  {
  }

  // ---------- dry-run output is applicable

  lemma {:induction false} TotalsOfPublished(cs: seq<Candidate>)
    ensures TotalCounts(Published(cs)).messages == SumMessages(cs)
    ensures TotalCounts(Published(cs)).batches == |cs|
  {
    if cs != [] {
      var n := |cs| - 1;
      TotalsOfPublished(cs[..n]);
      assert Published(cs)[..n] == Published(cs[..n]);
    }
  }

  lemma PlanBatches(p: Policy, e: Evidence, cs: seq<Candidate>, plan: Plan)
    requires BuildPlan(p, e, true, true, cs) == Some(plan) && Sorted(CandidateBefore, cs)
    ensures plan == Plan(p.siteId, p.cutoff, TotalCounts(Published(cs)), Published(cs)) && Sorted(PublicBefore, Published(cs))
  {
    hide PublicBefore, CandidateBefore, SelectionOk, TotalCounts, EvidenceOk;
    PublishedSorted(cs);
    SortOfSorted(PublicBefore, Published(cs));
  }

  lemma ManifestBatches(p: Policy, plan: Plan, m: Manifest, digest: Digest)
    requires BuildManifest(p.siteId, plan.cutoff, p.policyVersion, plan.batches, digest) == Some(m) && Sorted(PublicBefore, plan.batches)
    ensures m.batches == plan.batches && m.siteId == p.siteId && m.cutoff == plan.cutoff && m.policyVersion == p.policyVersion
    ensures forall i :: 0 <= i < |m.batches| ==> PublicBatchOk(m.batches[i])
  {
    hide PublicBefore, PublicBatchOk, ManifestHash, IsStrict, IsUtcMillis, Sort, Sorted;
    SortOfSorted(PublicBefore, plan.batches);
  }

  lemma {:induction false} LoadedInOrder(d: Delegate, p: Policy, cs: seq<Candidate>, groups: seq<Group>)
    requires ValidPolicy(p) && LoadsAs(d, AsInput(p), cs, groups) && Sorted(CandidateBefore, cs)
    ensures Sort(CandidateBefore, cs) == cs && |groups| == |cs| && CandidatesOk(cs, p)
    ensures forall i :: 0 <= i < |cs| ==> groups[i].parent.id == cs[i].batchRecordId
  {
    hide CandidateBefore, GroupLoads, UniqueRows, Flatten, CandidateOk, RecordIds, IsStrict, IsUtcMillis;
    SortOfSorted(CandidateBefore, cs);
    CandidatesModeless(cs, p);
    forall i | 0 <= i < |cs|
      ensures groups[i].parent.id == cs[i].batchRecordId
    {
      assert GroupLoads(d, cs[i], p.(dryRun := true), groups[i]);
      LoadedParent(d, cs[i], p.(dryRun := true), groups[i]);
    }
  }

  /** Plan, manifest, escrow stream and private records, each sorted on its own, have the same
      batch at every index. */
  lemma {:induction false} SortsAgree(input: PolicyInput, e: Evidence, cs: seq<Candidate>, d: Delegate, schemaFingerprint: Text,
                   r: DryRunResult, groups: seq<Group>, digest: Digest)
    requires Coordinated(input, e, cs, d, schemaFingerprint, r, groups, digest) && Sorted(CandidateBefore, cs)
    ensures r.plan.batches == Published(cs) == r.manifest.batches && Sort(CandidateBefore, cs) == cs && |groups| == |cs|
    ensures forall i :: 0 <= i < |cs| ==> groups[i].parent.id == cs[i].batchRecordId
    ensures r.plan.siteId == r.manifest.siteId == input.siteId && r.plan.cutoff == r.manifest.cutoff == input.cutoff
    ensures r.manifest.policyVersion == RetentionPolicy.POLICY_VERSION && r.plan.totals == TotalCounts(r.plan.batches)
    ensures forall i :: 0 <= i < |r.manifest.batches| ==> PublicBatchOk(r.manifest.batches[i])
    ensures CandidatesOk(cs, ParsePolicy(input).value)
  {
    hide Writable, ResultFor, EscrowMatchesPlan, BuildPlan, BuildManifest, LoadsAs, PublicBefore, CandidateBefore, CandidatesOk, PublicBatchOk, TotalCounts,
         Sort, Sorted, Published, IsStrict, IsUtcMillis;
    ParsePolicyAgain(input);
    var p := ParsePolicy(input).value;
    PlanBatches(p, e, cs, r.plan);
    ManifestBatches(p, r.plan, r.manifest, digest);
    LoadedInOrder(d, p, cs, groups);
  }

  lemma LoadedParent(d: Delegate, c: Candidate, p: Policy, g: Group)
    requires GroupLoads(d, c, p, g)
    ensures g.parent.id == c.batchRecordId
  {
    hide Answered, OrphansOk, ChecksOk, StrictBatch, Less;
  }

  lemma CandidatesModeless(cs: seq<Candidate>, p: Policy)
    ensures CandidatesOk(cs, p.(dryRun := true)) <==> CandidatesOk(cs, p)
  {
    hide RecordIds, IsStrict, IsUtcMillis, Less;
    assert forall i :: 0 <= i < |cs| ==> (CandidateOk(cs[i], p.(dryRun := true)) <==> CandidateOk(cs[i], p));
  }

  lemma EscrowIsValid(h: Header, records: seq<Record>, digest: Digest)
    requires Writable(h, records, digest) && forall t :: IsHash(digest(t))
    ensures ValidVerification(ResultFor(h, records, digest))
  {
    hide IsHash, BytesOk, GroupsOk, RawsOf, ValidHeader, ValidCounts, ValidRecord;
    var groups :| Flatten(groups) == records && OpenOk(h, groups, HARD_LIMITS);
    GroupsCounted(groups);
  }

  lemma NormalizeOwn(p: Policy, plan: Plan, m: Manifest, digest: Digest)
    requires BuildManifest(p.siteId, plan.cutoff, p.policyVersion, plan.batches, digest) == Some(m) && forall t :: IsHash(digest(t))
    ensures NormalizeManifest(m, digest) == Some(m) && IsHash(m.hash)
  {
    hide BuildManifest, IsHash;
    NormalizeBuilt(p.siteId, plan.cutoff, p.policyVersion, plan.batches, digest);
    HashOfBuilt(p.siteId, plan.cutoff, p.policyVersion, plan.batches, digest);
  }

  lemma HashOfBuilt(siteId: Text, cutoff: Text, policyVersion: int, batches: seq<PublicBatch>, digest: Digest)
    requires BuildManifest(siteId, cutoff, policyVersion, batches, digest).Some? && forall t :: IsHash(digest(t))
    ensures IsHash(BuildManifest(siteId, cutoff, policyVersion, batches, digest).value.hash)
  {
    hide IsHash, ManifestHash, Sort, PublicBefore, PublicBatchOk, IsStrict, IsUtcMillis;
    HashesAreHashes(siteId, cutoff, policyVersion, Sort(PublicBefore, batches), digest);
  }

  /** The artifact builder does not throw on the output of a coordinated run over loaded candidates. */
  lemma ArtifactCanBeBuilt(input: PolicyInput, e: Evidence, cs: seq<Candidate>, d: Delegate, schemaFingerprint: Text,
                           r: DryRunResult, groups: seq<Group>, digest: Digest)
    requires Coordinated(input, e, cs, d, schemaFingerprint, r, groups, digest) && Sorted(CandidateBefore, cs) && cs != []
    requires forall t :: IsHash(digest(t))
    ensures ArtifactBuildable(r.manifest, r.escrow, cs, digest) && NormalizeManifest(r.manifest, digest) == Some(r.manifest)
    ensures EscrowMatches(r.escrow, r.manifest) && ValidVerification(r.escrow) && IsHash(r.manifest.hash)
  {
    hide LoadsAs, Writable, BuildPlan, BuildManifest, NormalizeManifest, IsHash, ParsePolicy, PublicBefore, CandidateBefore, TotalCounts,
         RecordMatches, PrivateRecordOk, ValidVerification, ManifestHash, CandidateOk, RecordIds, FooterFor;
    SortsAgree(input, e, cs, d, schemaFingerprint, r, groups, digest);
    var p := ParsePolicy(input).value;
    NormalizeOwn(p, r.plan, r.manifest, digest);
    EscrowIsValid(HeaderFor(p, r.manifest, schemaFingerprint), Flatten(groups), digest);
    TotalsOfPublished(cs);
    forall i | 0 <= i < |cs|
      ensures PrivateRecordOk(cs[i]) && RecordMatches(cs[i], r.manifest.batches[i], r.manifest)
    {
      CandidateIsPrivate(cs[i], p, r.manifest, input);
    }
  }

  lemma CandidateIsPrivate(c: Candidate, p: Policy, m: Manifest, input: PolicyInput)
    requires CandidateOk(c, p) && ParsePolicy(input) == Some(p) && m.siteId == input.siteId && m.cutoff == input.cutoff
    ensures PrivateRecordOk(c) && RecordMatches(c, Publish(c), m)
  {
    hide IsUtcMillis, Less;
  }

  /** The main result: apply accepts manifest and artifact under the same policy with fresh
      evidence, and binding i names the batch that manifest index i publishes and that group i of
      the escrow holds. */
  lemma DryRunIsApplicable(input: PolicyInput, e: Evidence, cs: seq<Candidate>, d: Delegate, schemaFingerprint: Text,
                           r: DryRunResult, groups: seq<Group>, later: Evidence, digest: Digest)
    requires Coordinated(input, e, cs, d, schemaFingerprint, r, groups, digest) && Sorted(CandidateBefore, cs) && cs != []
    requires EvidenceOk(later) && forall t :: IsHash(digest(t))
    ensures var a := ArtifactFor(r.manifest.siteId, r.manifest.hash, r.escrow, cs, digest);
            && ArtifactBuildable(r.manifest, r.escrow, cs, digest)
            && |a.bindings| == |r.manifest.batches| == |groups| == |cs|
            && (forall i :: 0 <= i < |cs| ==> && a.bindings[i] == Binding(i, groups[i].parent.id)
                                              && r.manifest.batches[i] == Publish(cs[i]) && cs[i].batchRecordId == groups[i].parent.id)
            && exists c :: ContextParses(input.(apply := true), later, r.manifest, a, c, digest)
  {
    hide Coordinated, NormalizeManifest, IsHash, EvidenceOk, CandidateBefore, TotalCounts, ValidVerification, ArtifactHash, EscrowMatches, CandidateOk, RecordIds;
    SortsAgree(input, e, cs, d, schemaFingerprint, r, groups, digest);
    ArtifactCanBeBuilt(input, e, cs, d, schemaFingerprint, r, groups, digest);
    var a := ArtifactFor(r.manifest.siteId, r.manifest.hash, r.escrow, cs, digest);
    PolicyOf(input, e, cs, d, schemaFingerprint, r, groups, digest);
    TotalsOfPublished(cs);
    ArtifactHashIsHash(a, digest);
    BoundCandidates(cs, ParsePolicy(input).value);
    var c := Context(ParsePolicy(input.(apply := true)).value, later, r.manifest, a);
    assert ArtifactParses(a, digest);
    assert ContextParses(input.(apply := true), later, r.manifest, a, c, digest);
  }

  lemma PolicyOf(input: PolicyInput, e: Evidence, cs: seq<Candidate>, d: Delegate, schemaFingerprint: Text,
                 r: DryRunResult, groups: seq<Group>, digest: Digest)
    requires Coordinated(input, e, cs, d, schemaFingerprint, r, groups, digest)
    ensures ParsePolicy(input).Some? && ParsePolicy(input.(apply := true)) == Some(ParsePolicy(input).value.(dryRun := false))
    ensures IsStrict(input.siteId)
  {
    hide LoadsAs, Writable, BuildPlan, BuildManifest, ResultFor, EscrowMatchesPlan;
  }

  lemma ArtifactHashIsHash(a: Artifact, digest: Digest)
    requires a.hash == ArtifactHash(a.version, a.siteId, a.publicManifestHash, a.escrow, a.bindings, digest) && forall t :: IsHash(digest(t))
    ensures IsHash(a.hash)
  {
    hide IsHash;
    ArtifactIntegers(a.version, a.siteId, a.publicManifestHash, a.escrow, a.bindings);
  }

  lemma BoundCandidates(cs: seq<Candidate>, p: Policy)
    requires CandidatesOk(cs, p) && cs != [] && p.maxBatches <= MAX_BATCH_LIMIT
    ensures BindingsOk(BindingsFor(cs))
  {
    hide IsUtcMillis, Less, IsStrict;
    forall i | 0 <= i < |cs|
      ensures BindingOk(BindingsFor(cs)[i], i)
    {
      assert CandidateOk(cs[i], p);
    }
    assert forall i, j :: 0 <= i < j < |cs| ==> RecordIds(cs)[i] != RecordIds(cs)[j];
    assert forall i :: 0 <= i < |cs| ==> BindingsFor(cs)[i].batchRecordId == RecordIds(cs)[i];
  }

  datatype DryRunOutput = DryRunOutput(result: DryRunResult, artifact: Artifact)

  lemma LoadedSorted(cs: seq<Candidate>)
    requires exists loaded :: cs == Sort(CandidateBefore, loaded)
    ensures Sorted(CandidateBefore, cs)
  {
    hide CandidateBefore, Sort;
    CandidateBeforeIsOrder();
    var loaded :| cs == Sort(CandidateBefore, loaded);
    SortSorted(CandidateBefore, loaded);
  }

  /** The candidates that the database holds for the policy, in their order. */
  ghost predicate LoadsCandidates(q: CandidateQueries, input: PolicyInput, cs: seq<Candidate>) {
    && ParsePolicy(input).Some?
    && var p := ParsePolicy(input).value;
       && Loadable(q, p)
       && exists loaded :: IsLoaded(q, p, q.findBatches(p.siteId, p.cutoff, p.maxBatches + 1).value, loaded) && cs == Sort(CandidateBefore, loaded)
  }

  lemma LoadsOnlyThese(q: CandidateQueries, input: PolicyInput, cs: seq<Candidate>)
    requires LoadsCandidates(q, input, cs)
    ensures forall other :: LoadsCandidates(q, input, other) ==> other == cs
  {
    hide Sort, CandidateBefore, Loaded;
    var p := ParsePolicy(input).value;
    var ss := q.findBatches(p.siteId, p.cutoff, p.maxBatches + 1).value;
    forall other | LoadsCandidates(q, input, other)
      ensures other == cs
    {
      var a :| IsLoaded(q, p, ss, a) && cs == Sort(CandidateBefore, a);
      var b :| IsLoaded(q, p, ss, b) && other == Sort(CandidateBefore, b);
      assert a == b;
    }
  }

  /** What a run issues: the result for the database's candidates, the artifact for it, and the lines
      of its escrow. */
  ghost predicate Issued(q: CandidateQueries, input: PolicyInput, e: Evidence, d: Delegate, schemaFingerprint: Text, output: DryRunOutput,
                         cs: seq<Candidate>, groups: seq<Group>, chunks: seq<Bytes>, digest: Digest)
  {
    var r := output.result;
    && cs != [] && LoadsCandidates(q, input, cs) && Coordinated(input, e, cs, d, schemaFingerprint, r, groups, digest)
    && output.artifact == ArtifactFor(r.manifest.siteId, r.manifest.hash, r.escrow, cs, digest)
    && chunks == ChunksOf(FileLines(HeaderFor(ParsePolicy(input).value, r.manifest, schemaFingerprint), Flatten(groups), digest))
  }

  /** Apply takes the output under the same policy with any fresh evidence. */
  ghost predicate AcceptedByApply(input: PolicyInput, output: DryRunOutput, digest: Digest) {
    forall later :: EvidenceOk(later) ==>
      exists c :: ContextParses(input.(apply := true), later, output.result.manifest, output.artifact, c, digest)
  }

  ghost predicate BindsGroups(output: DryRunOutput, groups: seq<Group>) {
    && |output.artifact.bindings| == |groups|
    && forall i :: 0 <= i < |groups| ==> output.artifact.bindings[i] == Binding(i, groups[i].parent.id)
  }

  /** No escrow of one of the database's candidates fits the sink. */
  ghost predicate NothingFits(q: CandidateQueries, input: PolicyInput, e: Evidence, d: Delegate, schemaFingerprint: Text, capacity: nat, digest: Digest) {
    forall cs, r, groups ::
      cs != [] && LoadsCandidates(q, input, cs) && Coordinated(input, e, cs, d, schemaFingerprint, r, groups, digest) ==> |Flatten(groups)| + 2 > capacity
  }

  /** The data flow of `executeDryRun` when both an escrow and a private artifact are asked for. A
      run that has an escrow fails afterwards only when there is no batch at all, and its output is
      accepted by apply. */
  method ExecuteDryRun(input: PolicyInput, e: Evidence, q: CandidateQueries, d: Delegate, schemaFingerprint: Text,
                       sink: Sink, locks: HeldLocks, digest: Digest)
    returns (r: Option<DryRunOutput>, ghost cs: seq<Candidate>, ghost groups: seq<Group>)
    requires forall t :: IsHash(digest(t))
    requires sink.chunks == []
    modifies sink, locks
    ensures locks.tokens == old(locks.tokens)
    ensures r.Some? ==> Issued(q, input, e, d, schemaFingerprint, r.value, cs, groups, sink.chunks, digest) && Sorted(CandidateBefore, cs)
    ensures r.Some? ==> AcceptedByApply(input, r.value, digest) && BindsGroups(r.value, groups) && |Flatten(groups)| + 2 <= sink.capacity
    ensures r.None? && EvidenceOk(e) && input.siteId !in locks.tokens ==> NothingFits(q, input, e, d, schemaFingerprint, sink.capacity, digest)
  {
    hide Coordinated, IsHash, Sort, CandidateBefore, IsLoaded, Sorted, ArtifactBuildable, ArtifactFor, NormalizeManifest, ValidPolicy, Loadable, Flatten,
         AcceptedByApply, BindsGroups, ChunksOf, FileLines;
    r, cs, groups := None, [], [];
    var policy := ParsePolicy(input);
    if policy.None? { return; }
    ParsePolicyAgain(input);
    var records := LoadCandidateRecords(q, policy.value);
    if records.None? { return; }
    cs := records.value;
    LoadedSorted(cs);
    LoadsOnlyThese(q, input, cs);
    var coordinated, written := CoordinateEscrowDryRun(input, e, e.queueHealthy, true, records.value, d, schemaFingerprint, sink, locks, digest);
    groups := written;
    if coordinated.None? { return; }
    BuildableExactly(input, e, cs, d, schemaFingerprint, coordinated.value, groups, digest);
    var artifact := BuildArtifact(coordinated.value.manifest, coordinated.value.escrow, records.value, digest);
    if artifact.None? {
      assert records.value == [];
      return;
    }
    r := Some(DryRunOutput(coordinated.value, artifact.value));
    OutputIsAccepted(input, e, cs, d, schemaFingerprint, r.value, groups, digest);
  }

  lemma OutputIsAccepted(input: PolicyInput, e: Evidence, cs: seq<Candidate>, d: Delegate, schemaFingerprint: Text,
                         output: DryRunOutput, groups: seq<Group>, digest: Digest)
    requires Coordinated(input, e, cs, d, schemaFingerprint, output.result, groups, digest) && Sorted(CandidateBefore, cs) && cs != []
    requires output.artifact == ArtifactFor(output.result.manifest.siteId, output.result.manifest.hash, output.result.escrow, cs, digest)
    requires forall t :: IsHash(digest(t))
    ensures AcceptedByApply(input, output, digest) && BindsGroups(output, groups)
  {
    hide Coordinated, IsHash, Sort, CandidateBefore, ContextParses, Sorted, ArtifactBuildable, ArtifactHash, EvidenceOk;
    forall later | EvidenceOk(later)
      ensures exists c :: ContextParses(input.(apply := true), later, output.result.manifest, output.artifact, c, digest)
    {
      DryRunIsApplicable(input, e, cs, d, schemaFingerprint, output.result, groups, later, digest);
    }
    SortsAgree(input, e, cs, d, schemaFingerprint, output.result, groups, digest);
  }

  /** After a successful escrow run the artifact builder throws exactly when there is no batch. */
  lemma BuildableExactly(input: PolicyInput, e: Evidence, cs: seq<Candidate>, d: Delegate, schemaFingerprint: Text,
                         r: DryRunResult, groups: seq<Group>, digest: Digest)
    requires Coordinated(input, e, cs, d, schemaFingerprint, r, groups, digest) && Sorted(CandidateBefore, cs)
    requires forall t :: IsHash(digest(t))
    ensures ArtifactBuildable(r.manifest, r.escrow, cs, digest) <==> cs != []
    ensures cs != [] ==> NormalizeManifest(r.manifest, digest) == Some(r.manifest)
  {
    hide Coordinated, Sorted, CandidateBefore, IsHash, NormalizeManifest, PrivateRecordOk, ValidVerification, EscrowMatches, RecordsMatch;
    if cs != [] { ArtifactCanBeBuilt(input, e, cs, d, schemaFingerprint, r, groups, digest); }
  }
}
