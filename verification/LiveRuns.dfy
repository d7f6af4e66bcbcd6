/**
 What every sequence of applies, controlled loads and recoveries keeps: the receipt that the files on disk settle on has
 orderly handler tags, whatever failed, died or was replaced on the way.
 */
module LiveRuns {
  import opened Wrappers
  import opened ApplyJournal
  import opened RuntimeModel
  import opened XrayCore
  import opened LiveRuntime

  // Recovery of this disk yields files whose receipt is sound.
  ghost predicate KeptOn(policy: Policy, path: Path, maxRetained: nat, identity: nat, s: Store<Document>) {
    exists settled :: Settling(policy, settled, s) && Fits(settled, path, maxRetained, identity)
  }

  lemma KeptBy(policy: Policy, settled: Files<Document>, path: Path, maxRetained: nat, identity: nat,
               s: Store<Document>)
    requires Settling(policy, settled, s) && Fits(settled, path, maxRetained, identity)
    ensures KeptOn(policy, path, maxRetained, identity, s)
  {
  }

  // A later process is not the one that the receipt describes.
  lemma KeptLater(policy: Policy, path: Path, maxRetained: nat, identity: nat, later: nat, s: Store<Document>)
    requires KeptOn(policy, path, maxRetained, identity, s) && identity <= later
    ensures KeptOn(policy, path, maxRetained, later, s)
  {
    var settled :| Settling(policy, settled, s) && Fits(settled, path, maxRetained, identity);
    KeptBy(policy, settled, path, maxRetained, later, s);
  }

  lemma RecoveryKeeps(policy: Policy, path: Path, maxRetained: nat, identity: nat, s: Store<Document>, vs: seq<Verdict>)
    requires KeptOn(policy, path, maxRetained, identity, s)
    ensures KeptOn(policy, path, maxRetained, identity, Recover(policy, s, vs).store)
  {
    var settled :| Settling(policy, settled, s) && Fits(settled, path, maxRetained, identity);
    RecoverSettles(policy, settled, s, vs);
    KeptBy(policy, settled, path, maxRetained, identity, Recover(policy, s, vs).store);
  }

  lemma OldOrNewKeeps(policy: Policy, path: Path, maxRetained: nat, identity: nat,
                      files: Files<Document>, updates: seq<Update<Document>>, s: Store<Document>)
    requires OldOrNew(policy, files, updates, s) && Fits(files, path, maxRetained, identity)
    requires Loads(policy, Entries(policy, files, updates)) ==>
              Fits(NewFiles(policy, files, updates), path, maxRetained, identity)
    ensures KeptOn(policy, path, maxRetained, identity, s)
  {
    KeptBy(policy, if Settling(policy, files, s) then files else NewFiles(policy, files, updates), path, maxRetained,
           identity, s);
  }

  lemma HotKeeps(policy: Policy, layout: Layout, maxRetained: nat, identity: nat,
                 files: Files<Document>, plan: Plan, updates: seq<Update<Document>>, seen: Observation,
                 s: Store<Document>)
    requires HotLeaves(policy, layout, files, plan, updates, seen, s)
    requires HotFitting(policy, layout, maxRetained, identity, files, plan, updates, seen)
    ensures KeptOn(policy, layout.receiptPath, maxRetained, identity, s)
  {
    if OldOrNew(policy, files, updates, s) {
      OldOrNewKeeps(policy, layout.receiptPath, maxRetained, identity, files, updates, s);
    } else {
      KeptBy(policy, s.files, layout.receiptPath, maxRetained, identity, s);
    }
  }

  // The receipt of a controlled load fits whatever files it is put into.
  lemma LoadFits(policy: Policy, layout: Layout, maxRetained: nat, identity: nat,
                 files: Files<Document>, written: Option<Receipt>, sizeOf: Document -> nat)
    requires written.Some? ==> Orderly(written.value, maxRetained) && written.value.identity <= identity
    requires written.None? ==> Fits(files, layout.receiptPath, maxRetained, identity)
    ensures Fits(WithLoad(files, policy, layout, written, sizeOf), layout.receiptPath, maxRetained, identity)
  {
  }

  lemma ColdKeeps(policy: Policy, layout: Layout, maxRetained: nat, identity: nat, files: Files<Document>,
                  updates: seq<Update<Document>>, written: Option<Receipt>, sizeOf: Document -> nat, s: Store<Document>)
    requires ColdLeaves(policy, layout, files, updates, written, sizeOf, s)
    requires Fits(files, layout.receiptPath, maxRetained, identity)
    requires Loads(policy, Entries(policy, files, updates)) ==>
               Fits(NewFiles(policy, files, updates), layout.receiptPath, maxRetained, identity)
    requires written.Some? ==> Orderly(written.value, maxRetained) && written.value.identity <= identity
    ensures KeptOn(policy, layout.receiptPath, maxRetained, identity, s)
  {
    if OldOrNew(policy, files, updates, s) {
      OldOrNewKeeps(policy, layout.receiptPath, maxRetained, identity, files, updates, s);
    } else {
      LoadFits(policy, layout, maxRetained, identity, files, written, sizeOf);
      if Loads(policy, Entries(policy, files, updates)) {
        LoadFits(policy, layout, maxRetained, identity, NewFiles(policy, files, updates), written, sizeOf);
      }
      KeptBy(policy, s.files, layout.receiptPath, maxRetained, identity, s);
    }
  }

  // ---------------------------------------------------------------------------------------------
  // The operations.

  ghost predicate Kept(rt: ProxyLiveRuntime)
    reads rt.bundle, rt.api
  {
    KeptOn(rt.bundle.policy, rt.layout.receiptPath, rt.maxRetained, rt.api.identity, rt.bundle.Contents())
  }

  lemma KeptFits(policy: Policy, path: Path, maxRetained: nat, identity: nat, s: Store<Document>)
    requires KeptOn(policy, path, maxRetained, identity, s) && s.journal.None?
    ensures Fits(s.files, path, maxRetained, identity)
  {
  }

  method Hot(rt: ProxyLiveRuntime, c: Capability, protocol: string, request: Plan, current: Logical, service: Service,
             requireHealth: bool, detach: bool)
    returns (outcome: HotOutcome)
    requires request.logical == LogicalTag(protocol) && Kept(rt)
    modifies rt`marker, rt.api, rt.bundle
    ensures rt.api.identity >= old(rt.api.identity) && Kept(rt)
  {
    ghost var s, identity := rt.bundle.Contents(), rt.api.identity;
    var plan, updates, seen;
    outcome, plan, updates, seen := rt.TryApply(c, protocol, request, current, service, requireHealth, detach);
    KeptLater(rt.bundle.policy, rt.layout.receiptPath, rt.maxRetained, identity, rt.api.identity, s);
    if !old(rt.Blocked()) {
      KeptFits(rt.bundle.policy, rt.layout.receiptPath, rt.maxRetained, identity, s);
      HotKeeps(rt.bundle.policy, rt.layout, rt.maxRetained, rt.api.identity, s.files, plan, updates, seen,
               rt.bundle.Contents());
    }
  }

  method ColdManual(rt: ProxyLiveRuntime, plan: Plan, current: Logical) returns (outcome: ColdOutcome)
    requires Kept(rt)
    modifies rt`marker, rt.api, rt.bundle
    ensures rt.api.identity >= old(rt.api.identity) && Kept(rt)
  {
    ghost var s, identity := rt.bundle.Contents(), rt.api.identity;
    var updates, written, previous;
    ghost var lost;
    outcome, updates, written, previous, lost := rt.ApplyCold(plan, current);
    KeptLater(rt.bundle.policy, rt.layout.receiptPath, rt.maxRetained, identity, rt.api.identity, s);
    if !old(rt.Blocked()) {
      KeptFits(rt.bundle.policy, rt.layout.receiptPath, rt.maxRetained, identity, s);
      ColdKeeps(rt.bundle.policy, rt.layout, rt.maxRetained, rt.api.identity, s.files, updates, written, plan.sizeOf,
                rt.bundle.Contents());
    }
  }

  /** A controlled load that succeeds needs no sound receipt before it. */
  method Load(rt: ProxyLiveRuntime, logical: Logical, previous: nat, generation: nat, sizeOf: Document -> nat)
    returns (r: Reply)
    modifies rt`marker, rt.api, rt.bundle`files
    ensures rt.api.identity >= old(rt.api.identity)
    ensures r.Ok? || old(Kept(rt)) ==> Kept(rt)
    ensures r.Ok? ==> ReceiptIn(rt.bundle.files, rt.layout.receiptPath).Some?
  {
    ghost var s, identity := rt.bundle.Contents(), rt.api.identity;
    var written;
    r, written := rt.RegisterControlledLoad(logical, previous, generation, sizeOf);
    if written.Some? && rt.bundle.files == WithLoad(s.files, rt.bundle.policy, rt.layout, written, sizeOf) {
      LoadFits(rt.bundle.policy, rt.layout, rt.maxRetained, rt.api.identity, s.files, written, sizeOf);
      KeptBy(rt.bundle.policy, rt.bundle.files, rt.layout.receiptPath, rt.maxRetained, rt.api.identity,
             rt.bundle.Contents());
    } else if old(Kept(rt)) {
      KeptLater(rt.bundle.policy, rt.layout.receiptPath, rt.maxRetained, identity, rt.api.identity, s);
    }
  }

  /** The recovery at startup: the files, then a service that may have read staged ones, then the generation that
      earlier tickets must not exceed. */
  method RecoverFilesBeforeStartup(rt: ProxyLiveRuntime, dependent: bool)
    returns (outcome: Outcome<Recovery>, minimum: nat)
    modifies rt.bundle
    ensures rt.bundle.Contents() == Recover(rt.bundle.policy, old(rt.bundle.Contents()), old(rt.bundle.verdicts)).store
    ensures old(Kept(rt)) ==> Kept(rt)
    ensures outcome.Returned? ==> rt.bundle.journal.None?
    ensures outcome.Returned? && ReceiptIn(rt.bundle.files, rt.layout.receiptPath).Some? ==>
              minimum == ReceiptIn(rt.bundle.files, rt.layout.receiptPath).value.generation
  {
    ghost var s, vs := rt.bundle.Contents(), rt.bundle.verdicts;
    minimum := 0;
    outcome := rt.bundle.Recover();
    if old(Kept(rt)) { RecoveryKeeps(rt.bundle.policy, rt.layout.receiptPath, rt.maxRetained, rt.api.identity, s, vs); }
    if !outcome.Returned? { return; }
    if rt.marker.Some? && dependent {
      var confirmed: bool := *;
      if !confirmed { return Raised, minimum; }
    }
    var receipt := ReceiptIn(rt.bundle.files, rt.layout.receiptPath);
    if receipt.None? && rt.layout.receiptPath in rt.bundle.files { return Raised, minimum; }
    if receipt.Some? { minimum := receipt.value.generation; }
  }

  datatype Step =
    | HotStep(c: Capability, protocol: string, request: Plan, current: Logical, service: Service,
              requireHealth: bool, detach: bool)
    | ColdStep(plan: Plan, current: Logical)
    | LoadStep(logical: Logical, previous: nat, generation: nat, sizeOf: Document -> nat)
    | StartupStep(dependent: bool)

  /** Every sequence of operations keeps the receipt that the files settle on sound. */
  method Run(rt: ProxyLiveRuntime, steps: seq<Step>)
    requires Kept(rt)
    requires forall i :: 0 <= i < |steps| && steps[i].HotStep? ==>
              steps[i].request.logical == LogicalTag(steps[i].protocol)
    modifies rt`marker, rt.api, rt.bundle
    ensures Kept(rt)
    ensures rt.bundle.journal.None? ==> Fits(rt.bundle.files, rt.layout.receiptPath, rt.maxRetained, rt.api.identity)
  {
    for i := 0 to |steps|
      invariant Kept(rt)
    {
      match steps[i] {
        case HotStep(c, protocol, request, current, service, requireHealth, detach) =>
          var _ := Hot(rt, c, protocol, request, current, service, requireHealth, detach);
        case ColdStep(plan, current) =>
          var _ := ColdManual(rt, plan, current);
        case LoadStep(logical, previous, generation, sizeOf) =>
          var _ := Load(rt, logical, previous, generation, sizeOf);
        case StartupStep(dependent) =>
          var _, _ := RecoverFilesBeforeStartup(rt, dependent);
      }
    }
    if rt.bundle.journal.None? {
      KeptFits(rt.bundle.policy, rt.layout.receiptPath, rt.maxRetained, rt.api.identity, rt.bundle.Contents());
    }
  }
}
