/** How a verify round is configured, and how the engine gets back onto the committed
    prefix of its window. */
module MtpRoutes {
  import opened Model
  import opened EngineState

  datatype Execution = Sequential | BatchPrefill | DeviceResident | VulkanFullpath | BatchDecodeChain

  datatype Config = Config(
    execution: Execution,
    needsSequential: bool,
    sequentialMulti: bool,
    cuda: bool,
    oneStepSnapshots: bool,
    noBonusOverride: Option<bool>,
    runway: bool,
    runwayMaxExtra: Option<nat>,
    specK: nat)

  function Min(a: nat, b: nat): nat { if a < b then a else b }
  function Max(a: nat, b: nat): nat { if a < b then b else a }

  /** Drafts to emit this round. */
  function EffectiveK(c: Config, remaining: nat): nat {
    var batch := Min(Max(c.specK, 1), remaining);
    match c.execution
    case BatchDecodeChain => Min(batch, 7)
    case BatchPrefill | DeviceResident => batch
    case VulkanFullpath => Min(batch, 1)
    case Sequential => if c.needsSequential && !c.sequentialMulti then Min(batch, 1) else batch
  }

  /** Drafts to verify beyond the emitted ones. */
  function RunwayExtra(c: Config, k: nat, remaining: nat, confidence: nat): nat {
    if c.runway && c.execution.DeviceResident? && remaining > k && confidence > 0 then
      var wanted := if c.runwayMaxExtra.Some? then c.runwayMaxExtra.value else Max(2 * k, 2);
      Min(Min(remaining - k, wanted), confidence)
    else 0
  }

  /** A round emits as many drafts as are asked for and still fit: a fused decode chain takes
      eight tokens with the current one, the full path verifies one draft, and so does the
      class verified sequentially unless it may take several. */
  lemma LargestRound(c: Config, remaining: nat, m: nat)
    ensures m <= EffectiveK(c, remaining) <==>
            && m <= remaining && (m <= c.specK || m <= 1)
            && (c.execution.BatchDecodeChain? ==> 1 + m <= 8)
            && (c.execution.VulkanFullpath? ==> m <= 1)
            && (c.execution.Sequential? && c.needsSequential && !c.sequentialMulti ==> m <= 1)
  {
  }

  /** And beyond those it verifies as many as the budget, the confidence and the set or default
      limit allow, on the device and with the runway on. */
  lemma LargestRunway(c: Config, k: nat, remaining: nat, confidence: nat, m: nat)
    requires m > 0
    ensures m <= RunwayExtra(c, k, remaining, confidence) <==>
            && c.runway && c.execution.DeviceResident? && k + m <= remaining && m <= confidence
            && (if c.runwayMaxExtra.Some? then m <= c.runwayMaxExtra.value else m <= 2 || m <= k + k)
  {
  }

  function NoBonus(c: Config, extra: nat, draftK: nat): bool {
    extra == 0 &&
    if c.noBonusOverride.Some? then c.noBonusOverride.value
    else c.execution.DeviceResident? && draftK > 1
  }

  predicate WindowExecution(c: Config) {
    c.execution.BatchPrefill? || c.execution.DeviceResident?
  }

  /** A window round that feeds its last draft only after full acceptance. */
  predicate WithoutBonus(c: Config, emitLimit: nat, draftK: nat)
  {
    emitLimit <= draftK && WindowExecution(c) && NoBonus(c, draftK - emitLimit, draftK)
  }

  function WindowLen(c: Config, emitLimit: nat, draftK: nat): nat
  {
    if WithoutBonus(c, emitLimit, draftK) then draftK else draftK + 1
  }

  /** A round that cuts its window without the checkpoint its execution needs is an error. */
  predicate CutFails(c: Config, emitLimit: nat, draftK: nat, accepted: nat)
  {
    c.execution.BatchPrefill? && !c.needsSequential && 1 + accepted < WindowLen(c, emitLimit, draftK)
  }

  /** A round that gets back onto its committed prefix by feeding it again. */
  predicate Replays(c: Config, recurrent: bool, emitLimit: nat, draftK: nat, accepted: nat)
  {
    && c.execution.BatchPrefill? && c.needsSequential && recurrent && !c.cuda
    && 0 < accepted && 1 + accepted < WindowLen(c, emitLimit, draftK)
  }

  /** The window fed to the target: the current token, then the drafts, the last one only
      when the round wants its bonus row. */
  function Window(current: Token, drafts: seq<Token>, noBonus: bool): seq<Token>
    requires drafts != []
  {
    [current] + if noBonus then drafts[..|drafts| - 1] else drafts
  }

  /** Prefix lengths whose recurrent state the window records. */
  function SnapshotPrefixes(c: Config, recurrent: bool, draftK: nat, noBonus: bool): set<nat>
    requires draftK > 0
  {
    var most := if noBonus then draftK - 1 else draftK;
    set p: nat | 1 <= p <= most && Records(c, recurrent, p)
  }

  predicate Records(c: Config, recurrent: bool, p: nat) {
    !c.cuda && c.execution.BatchPrefill? && recurrent ==> p == 1
  }

  datatype StatePlan = StatePlan(committed: nat, replay: bool)

  function PlanAfterRound(recurrent: bool, batch: bool, k: nat, accepted: nat, snapshotAvailable: bool): StatePlan {
    StatePlan(1 + accepted, recurrent && batch && accepted < k && !snapshotAvailable)
  }

  function MtpPlan(recurrent: bool, k: nat, accepted: nat, noBonus: bool, windowLen: nat,
                   prefixAvailable: bool): StatePlan {
    var plan := PlanAfterRound(recurrent, true, k, accepted, false);
    if (noBonus && plan.committed == windowLen) || prefixAvailable then plan.(replay := false) else plan
  }

  datatype Route = Keep | Snapshot | CheckpointSnapshot | CheckpointReplay

  /** The route of a batch-prefill or device round; `None` is one of its error returns. */
  function PlanRoute(c: Config, recurrent: bool, k: nat, accepted: nat, noBonus: bool, windowLen: nat,
                     prefixAvailable: bool, checkpointed: bool): Option<Route>
  {
    var committed := 1 + accepted;
    var batch := c.execution.BatchPrefill?;
    if batch && MtpPlan(recurrent, k, accepted, noBonus, windowLen, prefixAvailable).replay then
      if checkpointed then Some(CheckpointReplay) else None
    else if committed == windowLen then Some(Keep)
    else if batch && !checkpointed then None
    else if !prefixAvailable then None
    else Some(if batch then CheckpointSnapshot else Snapshot)
  }

  predicate Checkpointed(c: Config) {
    c.execution.BatchPrefill? && c.needsSequential
  }

  /** A cut-back round has the snapshot or checkpoint its route needs exactly when it runs on
      the device, has nothing to cut, or belongs to the class that takes checkpoints. */
  lemma RouteAvailable(c: Config, recurrent: bool, k: nat, accepted: nat, noBonus: bool)
    requires c.execution.BatchPrefill? || c.execution.DeviceResident?
    requires 0 < k && accepted <= k && (noBonus ==> accepted < k)
    ensures var windowLen := if noBonus then k else k + 1;
            var have := (1 + accepted) in SnapshotPrefixes(c, recurrent, k, noBonus);
            var route := PlanRoute(c, recurrent, k, accepted, noBonus, windowLen, have, Checkpointed(c));
            && (route.Some? <==> c.execution.DeviceResident? || 1 + accepted == windowLen || c.needsSequential)
            && (route == Some(Keep) <==> 1 + accepted == windowLen)
            && (route == Some(Snapshot) ==> have && c.execution.DeviceResident?)
            && (route == Some(CheckpointSnapshot) ==> have && Checkpointed(c))
            && (route == Some(CheckpointReplay) <==>
                  recurrent && !c.cuda && Checkpointed(c) && 0 < accepted && 1 + accepted < windowLen)
            && (route == Some(CheckpointSnapshot) <==>
                  have && Checkpointed(c) && 1 + accepted < windowLen)
  {
  }

  /** Restores the checkpoint and feeds the committed tokens again, one by one. */
  method ReplayCommitted(e: Engine, q: Request, ckpt: Checkpoint, window: seq<Token>, committed: nat, ghost base: State)
    returns (next: Token)
    requires e.Valid() && e.target == q.target
    requires 0 < committed <= |window|
    requires ckpt.len == |base.kv| <= |e.rows| && e.rows[..ckpt.len] == base.kv && ckpt.rec == base.rec
    modifies e
    ensures e.Valid() && e.Now() == FeedAll(q.target, base, window[..committed])
    ensures next == q.argmax(q.target.head(e.Now()))
  {
    e.Restore(ckpt);
    var logits := [];
    for i := 0 to committed
      invariant e.Valid() && e.Now() == FeedAll(q.target, base, window[..i])
      invariant i > 0 ==> logits == q.target.head(e.Now())
    {
      FeedAllStep(q.target, base, window, i);
      logits := e.Forward(window[i]);
    }
    next := q.argmax(logits);
  }

  /** A recorded prefix state brings the engine onto that prefix of the window: whole
      snapshots from anywhere, one-step ones only over the restored checkpoint. */
  method RestoreCommitted(e: Engine, ckpt: Option<Checkpoint>, payload: Payload, window: seq<Token>, committed: nat,
                          oneStep: bool, baseLen: nat, ghost base: State)
    requires baseLen == |base.kv|
    requires e.Valid() && e.Now() == FeedAll(e.target, base, window) && 0 < committed <= |window|
    requires payload == PayloadAfter(e.target, base, window, committed, oneStep)
    requires oneStep ==> ckpt.Some?
    requires ckpt.Some? ==> ckpt.value == Checkpoint(|base.kv|, base.rec)
    modifies e
    ensures e.Valid() && e.Now() == FeedAll(e.target, base, window[..committed])
  {
    ghost var t := e.target;
    CutWindow(t, base, window, committed);
    if !t.recurrent { FeedAllNotRecurrent(t, base, window); }
    if committed == 1 {
      FeedAllStep(t, base, window, 0);
      assert window[..0] == [];
    }
    if ckpt.Some? { e.Restore(ckpt.value); }
    e.RestorePrefix(baseLen, committed, payload);
    assert e.rows[..e.len] == FeedAll(t, base, window).kv[..|base.kv| + committed];
  }
}
