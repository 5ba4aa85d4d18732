/** The retention policy, the candidate batches, and the orders they are sorted in. */
module RetentionPolicy {
  import opened Utf16
  import opened Options
  import opened StableSort
  import opened EscrowRecords

  const POLICY_VERSION: int := 1
  const MAX_BATCH_LIMIT: int := 100
  const MAX_MESSAGE_LIMIT: int := 10_000
  const DEFAULT_BATCH_LIMIT: int := 10
  const DEFAULT_MESSAGE_LIMIT: int := 1_000

  datatype PolicyInput = PolicyInput(siteId: Text, cutoff: Text, apply: bool, maxBatches: Option<int>, maxMessages: Option<int>)

  datatype Policy = Policy(siteId: Text, cutoff: Text, dryRun: bool, maxBatches: int, maxMessages: int, policyVersion: int)

  function ClampPositive(value: Option<int>, fallback: int, most: int): Option<int> {
    if value.None? then Some(fallback)
    else if 0 < value.value <= most then value
    else None
  }

  /** `parseNewsletterRetentionPolicy`. */
  function ParsePolicy(input: PolicyInput): Option<Policy> {
    var _ :- Require(IsStrict(input.siteId));
    var _ :- Require(IsUtcMillis(input.cutoff));
    var maxBatches :- ClampPositive(input.maxBatches, DEFAULT_BATCH_LIMIT, MAX_BATCH_LIMIT);
    var maxMessages :- ClampPositive(input.maxMessages, DEFAULT_MESSAGE_LIMIT, MAX_MESSAGE_LIMIT);
    Some(Policy(input.siteId, input.cutoff, !input.apply, maxBatches, maxMessages, POLICY_VERSION))
  }

  predicate ValidPolicy(p: Policy) {
    && IsStrict(p.siteId) && IsUtcMillis(p.cutoff) && p.policyVersion == POLICY_VERSION
    && 0 < p.maxBatches <= MAX_BATCH_LIMIT && 0 < p.maxMessages <= MAX_MESSAGE_LIMIT
  }

  /** A parsed policy handed to the parser again; it has no `apply` field. */
  function AsInput(p: Policy): PolicyInput { PolicyInput(p.siteId, p.cutoff, false, Some(p.maxBatches), Some(p.maxMessages)) }

  /** Parsing yields valid policies, and parsing one again changes nothing but the mode. */
  lemma ParsePolicyAgain(input: PolicyInput)
    requires ParsePolicy(input).Some?
    ensures var p := ParsePolicy(input).value;
            ValidPolicy(p) && p.dryRun == !input.apply && ParsePolicy(AsInput(p)) == Some(p.(dryRun := true))
  {
  }

  /** Which policies are taken: at most 100 batches and 10000 messages, 10 and 1000 if nothing is said. */
  lemma PolicyExactly(input: PolicyInput, p: Policy)
    ensures ParsePolicy(input) == Some(p) <==>
            && IsStrict(input.siteId) && IsUtcMillis(input.cutoff) && p.siteId == input.siteId && p.cutoff == input.cutoff
            && (p.dryRun <==> !input.apply) && p.policyVersion == 1
            && 1 <= p.maxBatches <= 100 && p.maxBatches == (if input.maxBatches.Some? then input.maxBatches.value else 10)
            && 1 <= p.maxMessages <= 10_000 && p.maxMessages == (if input.maxMessages.Some? then input.maxMessages.value else 1_000)
  {
    hide IsStrict, IsUtcMillis;
  }

  datatype Candidate = Candidate(
    siteId: Text, batchRecordId: Text, batchId: Text, createdAt: Text,
    messageCount: int, notificationCount: int, errorCount: int, orphanCount: int, correlationComplete: bool)

  /** What of a batch is published in plan and manifest. */
  datatype PublicBatch = PublicBatch(batchId: Text, createdAt: Text, messageCount: int, notificationCount: int, errorCount: int)

  function Publish(c: Candidate): PublicBatch {
    PublicBatch(c.batchId, c.createdAt, c.messageCount, c.notificationCount, c.errorCount)
  }

  /** The comparator of plan and manifest. */
  predicate PublicBefore(a: PublicBatch, b: PublicBatch) {
    if a.createdAt != b.createdAt then Less(a.createdAt, b.createdAt)
    else if a.batchId != b.batchId then Less(a.batchId, b.batchId)
    else if a.messageCount != b.messageCount then a.messageCount < b.messageCount
    else if a.notificationCount != b.notificationCount then a.notificationCount < b.notificationCount
    else a.errorCount < b.errorCount
  }

  /** The comparator of the two loaders: ties are broken by the private row id. */
  predicate CandidateBefore(a: Candidate, b: Candidate) {
    if Publish(a) != Publish(b) then PublicBefore(Publish(a), Publish(b))
    else Less(a.batchRecordId, b.batchRecordId)
  }

  lemma PublicOrder(a: PublicBatch, b: PublicBatch, c: PublicBatch)
    ensures PublicBefore(a, b) ==> !PublicBefore(b, a)
    ensures a != b ==> PublicBefore(a, b) || PublicBefore(b, a)
    ensures PublicBefore(a, b) && PublicBefore(b, c) ==> PublicBefore(a, c)
  {
    LessOrder(a.createdAt, b.createdAt, c.createdAt);
    LessOrder(a.batchId, b.batchId, c.batchId);
  }

  lemma {:induction false} LessOrder(a: Text, b: Text, c: Text)
    ensures Less(a, b) ==> !Less(b, a)
    ensures a != b ==> Less(a, b) || Less(b, a)
    ensures Less(a, b) && Less(b, c) ==> Less(a, c)
    ensures !Less(a, a) && !Less(b, b) && !Less(c, c)
  {
    LessIrreflexive(a);
    LessIrreflexive(b);
    LessIrreflexive(c);
    LessTotal(a, b);
    if Less(a, b) { LessAsymmetric(a, b); }
    if Less(a, b) && Less(b, c) { LessTransitive(a, b, c); }
  }

  lemma CandidateOrder(a: Candidate, b: Candidate, c: Candidate)
    ensures CandidateBefore(a, b) ==> !CandidateBefore(b, a)
    ensures Publish(a) != Publish(b) || a.batchRecordId != b.batchRecordId ==> CandidateBefore(a, b) || CandidateBefore(b, a)
    ensures CandidateBefore(a, b) && CandidateBefore(b, c) ==> CandidateBefore(a, c)
  {
    hide PublicBefore, Less;
    PublicOrder(Publish(a), Publish(b), Publish(c));
    LessOrder(a.batchRecordId, b.batchRecordId, c.batchRecordId);
  }

  lemma PublicBeforeIsOrder()
    ensures StrictWeakOrder(PublicBefore)
  {
    hide PublicBefore;
    forall a, b, c
      ensures PublicBefore(a, b) ==> !PublicBefore(b, a)
      ensures PublicBefore(a, b) && PublicBefore(b, c) ==> PublicBefore(a, c)
      ensures PublicBefore(a, c) ==> PublicBefore(a, b) || PublicBefore(b, c)
    {
      PublicOrder(a, b, c);
      PublicOrder(a, c, b);
      PublicOrder(b, a, c);
      PublicOrder(b, c, a);
    }
  }

  lemma CandidateBeforeIsOrder()
    ensures StrictWeakOrder(CandidateBefore)
  {
    hide CandidateBefore;
    forall a, b, c
      ensures CandidateBefore(a, b) ==> !CandidateBefore(b, a)
      ensures CandidateBefore(a, b) && CandidateBefore(b, c) ==> CandidateBefore(a, c)
      ensures CandidateBefore(a, c) ==> CandidateBefore(a, b) || CandidateBefore(b, c)
    {
      CandidateOrder(a, b, c);
      CandidateOrder(a, c, b);
      CandidateOrder(b, a, c);
      CandidateOrder(b, c, a);
      if Publish(a) == Publish(b) && a.batchRecordId == b.batchRecordId { TiesAreAlike(a, b, c); }
    }
  }

  lemma TiesAreAlike(a: Candidate, b: Candidate, c: Candidate)
    requires Publish(a) == Publish(b) && a.batchRecordId == b.batchRecordId
    ensures CandidateBefore(a, c) ==> CandidateBefore(b, c)
    ensures CandidateBefore(c, a) ==> CandidateBefore(c, b)
  {
  }
}
